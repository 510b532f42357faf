/** Reading from memory takes four steps (lib/pmem/ARTree.cpp, lib/core/KVStore.cpp): the
    lookup tests the location, takes the pointer and then reads the location again with
    the size; the copy follows the pointer later. In between, everybody else goes on. */
module OffloadReads {
  import opened Basics
  import opened ValueIndex
  import opened Extents
  import opened OffloadState
  import opened OffloadData
  import opened OffloadSteps
  import opened OffloadClients
  import opened OffloadTheorems
  import OffloadRuns
  import Paths
  import W = OffloadWitnesses
  import S = OffloadStages

  /** How far a reader of k is: the location said memory; it has the pointer; the location
      still said memory, so it is about to copy this many bytes; it gave up or went to the
      device. */
  datatype Reader =
    | Tested(k: Key)
    | Fetched(k: Key, ptr: Pointer)
    | Located(k: Key, ptr: Pointer, size: nat)
    | Gone(k: Key)

  datatype View = View(s: State, readers: map<nat, Reader>, copies: map<nat, Option<Bytes>>)

  datatype ReadStep = Others(step: Step) | Test(r: nat, k: Key) | Fetch(r: nat) | Locate(r: nat) | Copy(r: nat)

  ghost predicate CanRead(c: Config, v: View, step: ReadStep) {
    match step
    case Others(p) => Enabled(c, v.s, p)
    case Test(r, k) => r !in v.readers && k in v.s.index && ReservedNotPublished(v.s.index[k])
    case Fetch(r) => r in v.readers && v.readers[r].Tested? && v.readers[r].k in v.s.index
    case Locate(r) => r in v.readers && v.readers[r].Fetched? && v.readers[r].k in v.s.index
    case Copy(r) => r in v.readers && v.readers[r].Located? && r !in v.copies
  }

  /** None: not memory, or memory not reserved by anybody. */
  function Copied(heap: Heap, ptr: Pointer, size: nat): (b: Option<Bytes>) {
    if ptr.Memory? && ptr.addr in heap && size <= |heap[ptr.addr]| then Some(heap[ptr.addr][..size]) else None
  }

  /** What a reader has after looking at the location again. */
  function AfterLocate(rd: Reader, w: Wrapper): (rd': Reader)
    requires rd.Fetched?
  {
    if w.location == PMEM then Located(rd.k, rd.ptr, w.size) else Gone(rd.k)
  }

  ghost predicate Advances(c: Config, v: View, step: ReadStep, v': View) {
    CanRead(c, v, step) &&
    match step
    case Others(p) => Defined(c, v.s, p) ==> v' == v.(s := Next(c, v.s, p))
    case Test(r, k) => v' == v.(readers := v.readers[r := Tested(k)])
    case Fetch(r) =>
      var k := v.readers[r].k; v' == v.(readers := v.readers[r := Fetched(k, v.s.index[k].ptr)])
    case Locate(r) =>
      v' == v.(readers := v.readers[r := AfterLocate(v.readers[r], v.s.index[v.readers[r].k])])
    case Copy(r) => v' == v.(copies := v.copies[r := Copied(v.s.heap, v.readers[r].ptr, v.readers[r].size)])
  }

  ghost function Relation(c: Config): (View, ReadStep, View) -> bool {
    (v, step, v') => Advances(c, v, step, v')
  }

  ghost predicate Run(c: Config, disk: Bytes, views: seq<View>, steps: seq<ReadStep>) {
    Paths.Path(Relation(c), views, steps) && views[0] == View(Initial(disk), map[], map[])
  }

  /** The others took this step, and found what they needed. */
  ghost predicate Moved(c: Config, v: View, step: Step, v': View) {
    Enabled(c, v.s, step) && Defined(c, v.s, step) && v' == v.(s := Next(c, v.s, step))
  }

  lemma ViewKeepsInv(c: Config, v: View, step: ReadStep, v': View)
    requires Inv(c, v.s) && Advances(c, v, step, v')
    ensures Inv(c, v'.s) && (step.Others? ==> Moved(c, v, step.step, v'))
  {
    if step.Others? { InvKept(c, v.s, step.step); }
  }

  lemma {:induction false} InvOfViews(c: Config, disk: Bytes, views: seq<View>, steps: seq<ReadStep>, i: nat)
    requires Run(c, disk, views, steps) && i <= |steps|
    ensures Inv(c, views[i].s)
  {
    if i == 0 {
      InvInitially(c, disk);
    } else {
      InvOfViews(c, disk, views, steps, i - 1);
      assert Relation(c)(views[i - 1], steps[i - 1], views[i]);
      ViewKeepsInv(c, views[i - 1], steps[i - 1], views[i]);
    }
  }

  lemma StepOfViews(c: Config, disk: Bytes, views: seq<View>, steps: seq<ReadStep>, i: nat)
    requires Run(c, disk, views, steps) && i < |steps|
    ensures Inv(c, views[i].s) && Advances(c, views[i], steps[i], views[i + 1])
    ensures steps[i].Others? ==> Moved(c, views[i], steps[i].step, views[i + 1])
  {
    InvOfViews(c, disk, views, steps, i);
    assert Relation(c)(views[i], steps[i], views[i + 1]);
    ViewKeepsInv(c, views[i], steps[i], views[i + 1]);
  }

  // ---- When memory is given back ----

  /** The step gives the memory of k back: the finalizer, publishing k's offload, or a client
      that took k out, because it was asked to or because the ready queue was full. */
  predicate Frees(s: State, step: Step, k: Key) {
    || (step.FinCancel? && ToPublish(s) && s.rqsts[s.pipe.finBatch[0]].key == k)
    || (step.Client? && step.call.Cancel? && step.call.w in s.clients && s.clients[step.call.w].k == k)
  }

  /** k is stored, in memory, and not just being published. */
  predicate InMemoryNow(s: State, k: Key) {
    k in s.stored && k in s.index && s.index[k].location == PMEM && Moving(s.phase) != Some(k)
  }

  predicate BeingRemoved(s: State, k: Key) {
    exists w :: w in s.clients && s.clients[w] == Cancelling(k)
  }

  /** The bytes v are at address a, in memory that is k's, or was until it was removed. */
  predicate Holds(s: State, k: Key, a: nat, v: Bytes) {
    && a in s.heap && s.heap[a] == v && k in s.index && s.index[k].ptr == Memory(a)
    && (InMemoryNow(s, k) || BeingRemoved(s, k))
  }

  /** The memory at a is k's alone. */
  ghost predicate Exclusive(s: State, k: Key, a: nat) {
    && (forall w :: w in s.clients && Owns(s.clients[w]) && s.clients[w].k != k && s.clients[w].k in s.index ==>
          s.index[s.clients[w].k].ptr != Memory(a))
    && (forall x :: x != k && InMemoryNow(s, x) ==> s.index[x].ptr != Memory(a))
    && (k in s.stored <==> InMemoryNow(s, k))
  }

  lemma RemovedApart(c: Config, s: State, k: Key, a: nat, w: nat)
    requires ClientsOk(s) && w in s.clients && s.clients[w] == Cancelling(k)
    requires k in s.index && s.index[k].ptr == Memory(a)
    ensures Exclusive(s, k, a)
  {
    assert HoldOk(s, s.clients[w]);
    assert Unshared(s, a);
    forall x | x in s.clients && Owns(s.clients[x]) && s.clients[x].k != k
      ensures s.index[s.clients[x].k].ptr != Memory(a)
    {
      assert HoldOk(s, s.clients[x]) && Apart(s.index, s.clients[w], s.clients[x]);
    }
  }

  lemma InMemoryApart(c: Config, s: State, k: Key, a: nat)
    requires KeysOk(c, s.index, s.heap, s.disk, s.stored, Moving(s.phase)) && ClientsOk(s)
    requires InMemoryNow(s, k) && s.index[k].ptr == Memory(a)
    ensures Exclusive(s, k, a)
  {
    forall w | w in s.clients && Owns(s.clients[w]) ensures s.index[s.clients[w].k].ptr != Memory(a) {
      assert HoldOk(s, s.clients[w]);
      assert Unshared(s, s.index[s.clients[w].k].ptr.addr);
    }
  }

  /** What k holds, no client has reserved and no other key has. */
  lemma HeldApart(c: Config, s: State, k: Key, a: nat, v: Bytes)
    requires Consistent(c, s) && Holds(s, k, a, v)
    ensures Exclusive(s, k, a)
  {
    if BeingRemoved(s, k) {
      var w :| w in s.clients && s.clients[w] == Cancelling(k);
      RemovedApart(c, s, k, a, w);
    } else {
      InMemoryApart(c, s, k, a);
    }
  }

  lemma SameHolds(s: State, t: State, k: Key, a: nat, v: Bytes)
    requires Holds(s, k, a, v) && SameMemory(s, t)
    ensures Holds(t, k, a, v)
  {
    if BeingRemoved(s, k) {
      var w :| w in s.clients && s.clients[w] == Cancelling(k);
      assert t.clients[w] == Cancelling(k);
    }
  }

  /** The tree changes elsewhere, memory at another address, and who is removing k stays. */
  lemma ElsewhereHolds(s: State, t: State, k: Key, a: nat, v: Bytes)
    requires Holds(s, k, a, v) && a in t.heap && t.heap[a] == v
    requires k in t.index && t.index[k] == s.index[k] && (k in s.stored <==> k in t.stored)
    requires Moving(t.phase) == Some(k) ==> Moving(s.phase) == Some(k)
    requires forall w :: w in s.clients && s.clients[w] == Cancelling(k) ==>
                           w in t.clients && t.clients[w] == Cancelling(k)
    ensures Holds(t, k, a, v)
  {
    if BeingRemoved(s, k) {
      var w :| w in s.clients && s.clients[w] == Cancelling(k);
      assert t.clients[w] == Cancelling(k);
    }
  }

  /** The key belongs to somebody else's call. */
  lemma OtherKey(c: Config, s: State, w: nat, k: Key, a: nat, v: Bytes)
    requires Consistent(c, s) && Holds(s, k, a, v) && w in s.clients && s.clients[w].Reserving?
    ensures s.clients[w].k != k
  {
    assert HoldOk(s, s.clients[w]);
    if BeingRemoved(s, k) {
      var x :| x in s.clients && s.clients[x] == Cancelling(k);
      assert Apart(s.index, s.clients[w], s.clients[x]);
    }
  }

  lemma ReserveHolds(c: Config, s: State, w: nat, k2: Key, size: nat, g: Grant, junk: Bytes, k: Key, a: nat, v: Bytes)
    requires Consistent(c, s) && Holds(s, k, a, v) && w !in s.clients && NoneHolds(s.clients, k2)
    requires g.Granted? ==> g.addr !in s.heap
    ensures Holds(HasReserved(s, w, k2, size, g, junk), k, a, v)
  {
    AllocShape(s.index, k2, size, g);
    if k2 == k {
      StoredIsVisible(c, s, k);
    } else {
      ElsewhereHolds(s, HasReserved(s, w, k2, size, g, junk), k, a, v);
    }
  }

  lemma FillHolds(s: State, w: nat, v2: Bytes, k: Key, a: nat, v: Bytes)
    requires Holds(s, k, a, v) && Exclusive(s, k, a) && w in s.clients && s.clients[w].Reserving?
    requires HoldOk(s, s.clients[w]) && s.clients[w].k != k
    ensures Holds(HasFilled(s, w, v2), k, a, v)
  {
    ElsewhereHolds(s, HasFilled(s, w, v2), k, a, v);
  }

  lemma PutHolds(s: State, w: nat, room: bool, k: Key, a: nat, v: Bytes)
    requires Holds(s, k, a, v) && w in s.clients && s.clients[w].Reserving? && s.clients[w].k != k
    ensures Holds(HasPut(s, w, room), k, a, v)
  {
    ElsewhereHolds(s, HasPut(s, w, room), k, a, v);
  }

  lemma UnlinkHolds(s: State, w: nat, k: Key, a: nat, v: Bytes)
    requires Holds(s, k, a, v) && w in s.clients && s.clients[w].Removing? && HoldOk(s, s.clients[w])
    ensures Holds(HasUnlinked(s, w), k, a, v)
  {
    var t := HasUnlinked(s, w);
    if s.clients[w].k == k {
      assert t.clients[w] == Cancelling(k);
    } else {
      ElsewhereHolds(s, t, k, a, v);
    }
  }

  lemma CancelHolds(s: State, w: nat, k: Key, a: nat, v: Bytes)
    requires Holds(s, k, a, v) && Exclusive(s, k, a) && w in s.clients && s.clients[w].Cancelling?
    requires HoldOk(s, s.clients[w])
    ensures var t := HasCancelled(s, w);
            (Holds(t, k, a, v) <==> s.clients[w].k != k) && (a !in t.heap <==> s.clients[w].k == k)
  {
    if s.clients[w].k != k { ElsewhereHolds(s, HasCancelled(s, w), k, a, v); }
  }

  /** k's memory stays through every call but the one that gives it back. */
  lemma CallHolds(c: Config, s: State, call: Call, k: Key, a: nat, v: Bytes)
    requires Consistent(c, s) && CallPossible(c, s, call) && CallCareful(s, call) && CallDefined(s, call)
    requires Holds(s, k, a, v) && !call.Cancel?
    ensures Holds(AfterCall(c, s, call), k, a, v)
  {
    if Asks(call) {
      SameHolds(s, AfterCall(c, s, call), k, a, v);
    } else {
      match call
      case Reserve(w, k2, size, g, junk) => ReserveHolds(c, s, w, k2, size, g, junk, k, a, v);
      case PutAgain(w, k2, room) => PutAgainHolds(c, s, w, k2, room, k, a, v);
      case RemoveFromMemory(w, k2) => StartHolds(s, w, k2, k, a, v);
      case _ => HeldCallHolds(c, s, call, k, a, v);
    }
  }

  lemma StartHolds(s: State, w: nat, k2: Key, k: Key, a: nat, v: Bytes)
    requires Holds(s, k, a, v) && w !in s.clients
    ensures Holds(s.(clients := s.clients[w := Removing(k2)]), k, a, v)
  {
    ElsewhereHolds(s, s.(clients := s.clients[w := Removing(k2)]), k, a, v);
  }

  lemma HeldCallHolds(c: Config, s: State, call: Call, k: Key, a: nat, v: Bytes)
    requires Consistent(c, s) && CallPossible(c, s, call) && CallDefined(s, call) && Holds(s, k, a, v)
    requires call.Fill? || call.PutReserved? || call.Unlink?
    ensures Holds(AfterCall(c, s, call), k, a, v)
  {
    HeldApart(c, s, k, a, v);
    assert HoldOk(s, s.clients[call.w]);
    if !call.Unlink? { OtherKey(c, s, call.w, k, a, v); }
    match call
    case Fill(w, v2) => FillHolds(s, w, v2, k, a, v);
    case PutReserved(w, room) => PutHolds(s, w, room, k, a, v);
    case Unlink(w) => UnlinkHolds(s, w, k, a, v);
  }

  lemma PutAgainHolds(c: Config, s: State, w: nat, k2: Key, room: bool, k: Key, a: nat, v: Bytes)
    requires Consistent(c, s) && Holds(s, k, a, v) && w !in s.clients
    requires k2 in s.index && s.index[k2].location == PMEM && NothingFor(s, k2)
    ensures Holds(s.(index := Put(s.index, k2).0, clients := AfterPut(s.clients, w, k2, room)), k, a, v)
  {
    VisibleInMemory(c, s, k2);
    ElsewhereHolds(s, s.(index := Put(s.index, k2).0, clients := AfterPut(s.clients, w, k2, room)), k, a, v);
  }

  lemma FinCancelHolds(s: State, k: Key, a: nat, v: Bytes, r: Rqst)
    requires Holds(s, k, a, v) && Exclusive(s, k, a) && s.phase.Idle? && ToPublish(s)
    requires r == s.rqsts[s.pipe.finBatch[0]] && InMemoryNow(s, r.key) && s.index[r.key].ptr == Memory(r.value)
    ensures var t := FinCancelled(s); (Holds(t, k, a, v) <==> r.key != k) && (a !in t.heap <==> r.key == k)
  {
    if r.key != k { ElsewhereHolds(s, FinCancelled(s), k, a, v); }
  }

  lemma FinPointHolds(c: Config, s: State, granted: bool, k: Key, a: nat, v: Bytes)
    requires Holds(s, k, a, v) && Exclusive(s, k, a) && MovingOk(s) && s.phase.Cancelled? && ToPublish(s)
    ensures Holds(FinPointed(c, s, granted), k, a, v)
  {
    ElsewhereHolds(s, FinPointed(c, s, granted), k, a, v);
  }

  /** Finalizing works on keys that are on the device, or about to be. */
  lemma FinHolds(c: Config, s: State, k: Key, a: nat, v: Bytes, r: Rqst)
    requires Holds(s, k, a, v) && Exclusive(s, k, a) && s.pipe.finBatch != [] && Known(s, s.pipe.finBatch[0])
    requires r == s.rqsts[s.pipe.finBatch[0]] && (r.op == GET && r.result ==> r.size <= |r.buff|)
    requires r.result && r.op != GET ==> r.key != k
    ensures Holds(FinOne(c, s), k, a, v)
  {
    FinTree(c, s);
    ElsewhereHolds(s, FinOne(c, s), k, a, v);
  }

  lemma FinCancelFrees(c: Config, s: State, k: Key, a: nat, v: Bytes)
    requires Consistent(c, s) && Holds(s, k, a, v) && s.phase.Idle? && ToPublish(s)
    ensures Holds(FinCancelled(s), k, a, v) <==> !Frees(s, FinCancel, k)
    ensures a !in FinCancelled(s).heap <==> Frees(s, FinCancel, k)
  {
    HeldApart(c, s, k, a, v);
    FinDefined(c, s);
    FinCancelHolds(s, k, a, v, s.rqsts[s.pipe.finBatch[0]]);
  }

  lemma FinProcessHolds(c: Config, s: State, k: Key, a: nat, v: Bytes)
    requires Consistent(c, s) && Holds(s, k, a, v) && s.pipe.finBatch != [] && Known(s, s.pipe.finBatch[0])
    requires var r := s.rqsts[s.pipe.finBatch[0]]; r.op == GET && r.result ==> r.size <= |r.buff|
    requires ToPublish(s) ==> s.phase.Pointed?
    ensures Holds(FinOne(c, s), k, a, v)
  {
    HeldApart(c, s, k, a, v);
    FinDefined(c, s);
    FinHolds(c, s, k, a, v, s.rqsts[s.pipe.finBatch[0]]);
  }

  lemma FinalizerHolds(c: Config, s: State, step: Step, k: Key, a: nat, v: Bytes)
    requires Consistent(c, s) && Possible(c, s, step) && Defined(c, s, step) && Holds(s, k, a, v)
    requires step.FinCancel? || step.FinPoint? || step.FinProcess?
    ensures Holds(Next(c, s, step), k, a, v) <==> !Frees(s, step, k)
    ensures a !in Next(c, s, step).heap <==> Frees(s, step, k)
  {
    match step
    case FinCancel => FinCancelFrees(c, s, k, a, v);
    case FinPoint(granted) => HeldApart(c, s, k, a, v); FinPointHolds(c, s, granted, k, a, v);
    case FinProcess => FinProcessHolds(c, s, k, a, v);
  }

  lemma ClientHolds(c: Config, s: State, call: Call, k: Key, a: nat, v: Bytes)
    requires Consistent(c, s) && CallPossible(c, s, call) && CallCareful(s, call) && CallDefined(s, call)
    requires Holds(s, k, a, v)
    ensures Holds(AfterCall(c, s, call), k, a, v) <==> !Frees(s, Client(call), k)
    ensures a !in AfterCall(c, s, call).heap <==> Frees(s, Client(call), k)
  {
    if call.Cancel? {
      HeldApart(c, s, k, a, v);
      assert HoldOk(s, s.clients[call.w]);
      CancelHolds(s, call.w, k, a, v);
    } else {
      CallHolds(c, s, call, k, a, v);
    }
  }

  /** While k's bytes are in memory, exactly the publishing of its offload and the end of its
      removal give that memory back, and nothing else touches it. */
  lemma FreedExactly(c: Config, s: State, step: Step, k: Key, a: nat, v: Bytes)
    requires Inv(c, s) && Enabled(c, s, step) && Defined(c, s, step) && Holds(s, k, a, v)
    ensures Holds(Next(c, s, step), k, a, v) <==> !Frees(s, step, k)
    ensures a !in Next(c, s, step).heap <==> Frees(s, step, k)
  {
    if step.Client? {
      ClientHolds(c, s, step.call, k, a, v);
    } else if step.FinCancel? || step.FinPoint? || step.FinProcess? {
      FinalizerHolds(c, s, step, k, a, v);
    } else {
      QuietMemory(c, s, step);
      SameHolds(s, Next(c, s, step), k, a, v);
    }
  }

  /** Step i of the run gives the memory of k back. */
  predicate FreesAt(views: seq<View>, steps: seq<ReadStep>, i: nat, k: Key)
    requires i < |steps| && i < |views|
  {
    steps[i].Others? && Frees(views[i].s, steps[i].step, k)
  }

  lemma StepHolds(c: Config, disk: Bytes, views: seq<View>, steps: seq<ReadStep>, i: nat, k: Key, a: nat, v: Bytes)
    requires Run(c, disk, views, steps) && i < |steps| && Holds(views[i].s, k, a, v)
    ensures Holds(views[i + 1].s, k, a, v) <==> !FreesAt(views, steps, i, k)
    ensures a !in views[i + 1].s.heap <==> FreesAt(views, steps, i, k)
  {
    StepOfViews(c, disk, views, steps, i);
    if steps[i].Others? { FreedExactly(c, views[i].s, steps[i].step, k, a, v); }
  }

  /** From a moment when k's bytes are at a: they stay there all the way if and only if no
      step in between gives the memory back. */
  lemma {:induction false} HeldThroughoutIff(c: Config, disk: Bytes, views: seq<View>, steps: seq<ReadStep>,
                                             i: nat, j: nat, k: Key, a: nat, v: Bytes)
    requires Run(c, disk, views, steps) && i <= j <= |steps| && Holds(views[i].s, k, a, v)
    ensures (forall t :: i <= t <= j ==> Holds(views[t].s, k, a, v)) <==>
            (forall t :: i <= t < j ==> !FreesAt(views, steps, t, k))
    decreases j - i
  {
    if i < j {
      StepHolds(c, disk, views, steps, i, k, a, v);
      if Holds(views[i + 1].s, k, a, v) { HeldThroughoutIff(c, disk, views, steps, i + 1, j, k, a, v); }
    }
  }

  // ---- What a reader gets ----

  /** A reader that has k's pointer, and if it saw k's size, saw the right one. */
  predicate OnTrack(readers: map<nat, Reader>, r: nat, k: Key, a: nat, v: Bytes) {
    && r in readers
    && (readers[r] == Fetched(k, Memory(a)) || readers[r] == Located(k, Memory(a), |v|) || readers[r].Gone?)
  }

  lemma TrackStep(c: Config, x: View, step: ReadStep, x': View, r: nat, k: Key, a: nat, v: Bytes)
    requires Inv(c, x.s) && Advances(c, x, step, x') && Holds(x.s, k, a, v) && OnTrack(x.readers, r, k, a, v)
    requires step.Others? ==> Moved(c, x, step.step, x')
    ensures OnTrack(x'.readers, r, k, a, v)
  {
    if step == Locate(r) && x.s.index[k].location == PMEM {
      assert WrapperData(c, x.s.heap, x.s.disk, x.s.index[k], x.s.stored[k]);
    }
  }

  lemma {:induction false} StaysOnTrack(c: Config, disk: Bytes, views: seq<View>, steps: seq<ReadStep>, i: nat, j: nat,
                                        r: nat, k: Key, a: nat, v: Bytes)
    requires Run(c, disk, views, steps) && i <= j <= |steps| && OnTrack(views[i].readers, r, k, a, v)
    requires forall t :: i <= t <= j ==> Holds(views[t].s, k, a, v)
    ensures OnTrack(views[j].readers, r, k, a, v)
    decreases j - i
  {
    if i < j {
      StepOfViews(c, disk, views, steps, i);
      TrackStep(c, views[i], steps[i], views[i + 1], r, k, a, v);
      StaysOnTrack(c, disk, views, steps, i + 1, j, r, k, a, v);
    }
  }

  /** In every run a reader that took its pointer while k was in memory and not just being
      published copies exactly the bytes stored at that moment, unless that memory was given
      back before the copy. */
  lemma CopyIsRightUnlessFreed(c: Config, disk: Bytes, views: seq<View>, steps: seq<ReadStep>, i: nat, j: nat, r: nat)
    requires Run(c, disk, views, steps) && i < j < |steps| && steps[i] == Fetch(r) && steps[j] == Copy(r)
    requires r in views[i].readers && InMemoryNow(views[i].s, views[i].readers[r].k)
    requires forall t :: i < t < j ==> !FreesAt(views, steps, t, views[i].readers[r].k)
    ensures r in views[j + 1].copies && views[j + 1].copies[r] == Some(views[i].s.stored[views[i].readers[r].k])
  {
    var k, v := views[i].readers[r].k, views[i].s.stored[views[i].readers[r].k];
    var a := FetchedIt(c, disk, views, steps, i, r, k);
    HeldThroughoutIff(c, disk, views, steps, i + 1, j, k, a, v);
    StaysOnTrack(c, disk, views, steps, i + 1, j, r, k, a, v);
    StepOfViews(c, disk, views, steps, j);
    CopyOnTrack(views[j], r, k, a, v);
  }

  /** It has the address of k's bytes. */
  lemma FetchedIt(c: Config, disk: Bytes, views: seq<View>, steps: seq<ReadStep>, i: nat, r: nat, k: Key)
    returns (a: nat)
    requires Run(c, disk, views, steps) && i < |steps| && steps[i] == Fetch(r)
    requires r in views[i].readers && views[i].readers[r].k == k && InMemoryNow(views[i].s, k)
    ensures Holds(views[i + 1].s, k, a, views[i].s.stored[k])
    ensures OnTrack(views[i + 1].readers, r, k, a, views[i].s.stored[k])
  {
    StepOfViews(c, disk, views, steps, i);
    var s := views[i].s;
    assert WrapperData(c, s.heap, s.disk, s.index[k], s.stored[k]);
    a := s.index[k].ptr.addr;
  }

  lemma CopyOnTrack(x: View, r: nat, k: Key, a: nat, v: Bytes)
    requires OnTrack(x.readers, r, k, a, v) && x.readers[r].Located? && Holds(x.s, k, a, v)
    ensures Copied(x.s.heap, x.readers[r].ptr, x.readers[r].size) == Some(v)
  {
    assert v[..|v|] == v;
  }

  // ---- Readers that are misled ----

  function AsOthers(steps: seq<Step>): (r: seq<ReadStep>) {
    seq(|steps|, i requires 0 <= i < |steps| => Others(steps[i]))
  }

  /** The others' own path, seen with the readers standing by. */
  lemma Lift(c: Config, v: View, steps: seq<Step>, t: State)
    requires OffloadRuns.Leads(c, v.s, steps, t, true)
    ensures Paths.Leads(Relation(c), v, AsOthers(steps), v.(s := t))
  {
    var states :| Paths.Path(OffloadRuns.Relation(c, true), states, steps) && states[0] == v.s && states[|steps|] == t;
    var views := seq(|states|, i requires 0 <= i < |states| => v.(s := states[i]));
    var calls := AsOthers(steps);
    forall i | 0 <= i < |calls| ensures Relation(c)(views[i], calls[i], views[i + 1]) {
      assert OffloadRuns.Relation(c, true)(states[i], steps[i], states[i + 1]);
      Lifted(c, v, states[i], steps[i], states[i + 1]);
    }
    assert Paths.Path(Relation(c), views, calls);
  }

  lemma Lifted(c: Config, v: View, s: State, step: Step, t: State)
    requires OffloadRuns.Takes(c, s, step, t, true)
    ensures Advances(c, v.(s := s), Others(step), v.(s := t))
  {
  }

  /** Reader 0 looks K1 up. */
  const LOOKUP: seq<ReadStep> := [Test(0, W.K1), Fetch(0), Locate(0)]

  lemma LookUpLeads(c: Config, v: View)
    requires v.readers == map[] && W.K1 in v.s.index && v.s.index[W.K1] == Wrapper(PMEM, Memory(1), 1, PMEM)
    ensures Paths.Leads(Relation(c), v, LOOKUP, v.(readers := map[0 := Located(W.K1, Memory(1), 1)]))
  {
    var v1 := v.(readers := v.readers[0 := Tested(W.K1)]);
    var v2 := v.(readers := v1.readers[0 := Fetched(W.K1, Memory(1))]);
    var v3 := v.(readers := v2.readers[0 := Located(W.K1, Memory(1), 1)]);
    Paths.OneStep(Relation(c), v, Test(0, W.K1), v1);
    Paths.OneStep(Relation(c), v1, Fetch(0), v2);
    Paths.OneStep(Relation(c), v2, Locate(0), v3);
    Paths.Then(Relation(c), v, [Test(0, W.K1)], v1, [Fetch(0)], v2);
    Paths.Then(Relation(c), v, [Test(0, W.K1)] + [Fetch(0)], v2, [Locate(0)], v3);
    assert [Test(0, W.K1)] + [Fetch(0)] + [Locate(0)] == LOOKUP;
    assert v3.readers == map[0 := Located(W.K1, Memory(1), 1)];
  }

  /** And copies what is at address 1 by then. */
  lemma CopyLeads(c: Config, v: View, b: Byte)
    requires v.readers == map[0 := Located(W.K1, Memory(1), 1)] && v.copies == map[]
    requires 1 in v.s.heap && v.s.heap[1] == [b]
    ensures Paths.Leads(Relation(c), v, [Copy(0)], v.(copies := map[0 := Some([b])]))
  {
    assert [b][..1] == [b];
    assert v.copies[0 := Some([b])] == map[0 := Some([b])];
    Paths.OneStep(Relation(c), v, Copy(0), v.(copies := map[0 := Some([b])]));
  }

  /** The others bring the system to s, a reader looks K1 up, and after the others brought it
      on to t the reader copies. */
  lemma ReadingLeads(c: Config, before: seq<Step>, s: State, between: seq<Step>, t: State, b: Byte)
    returns (views: seq<View>, steps: seq<ReadStep>)
    requires OffloadRuns.Leads(c, Initial(W.BLANK), before, s, true) && OffloadRuns.Leads(c, s, between, t, true)
    requires W.K1 in s.index && s.index[W.K1] == Wrapper(PMEM, Memory(1), 1, PMEM) && 1 in t.heap && t.heap[1] == [b]
    ensures Run(c, W.BLANK, views, steps)
    ensures views[|steps|] == View(t, map[0 := Located(W.K1, Memory(1), 1)], map[0 := Some([b])])
    ensures steps == AsOthers(before) + LOOKUP + AsOthers(between) + [Copy(0)]
    ensures views[|before|].s == s
  {
    var v0 := View(Initial(W.BLANK), map[], map[]);
    Lift(c, v0, before, s);
    var v1 := v0.(s := s);
    LookUpLeads(c, v1);
    var v2 := v1.(readers := map[0 := Located(W.K1, Memory(1), 1)]);
    Lift(c, v2, between, t);
    var v3 := v2.(s := t);
    CopyLeads(c, v3, b);
    var v4 := v3.(copies := map[0 := Some([b])]);
    var p1, p3 := AsOthers(before), AsOthers(between);
    Paths.Then(Relation(c), v1, LOOKUP, v2, p3, v3);
    Paths.Then(Relation(c), v1, LOOKUP + p3, v3, [Copy(0)], v4);
    views := Paths.Through(Relation(c), v0, p1, v1, LOOKUP + p3 + [Copy(0)], v4);
    steps := p1 + (LOOKUP + p3 + [Copy(0)]);
    assert steps == p1 + LOOKUP + p3 + [Copy(0)];
  }

  /** The memory of K1 went to K2 after K1's offload was published. */
  ghost function Reused(): (s: State)
    requires OffloadRuns.Writable(W.Small(1), W.OneKey(), W.K1, 0, [])
  {
    var t := OffloadRuns.Published(W.Small(1), OffloadRuns.Offloaded(W.Small(1), W.OneKey(), W.K1, 0, []), 0);
    OffloadRuns.WithKey(t, W.K2, 1, [2])
  }

  lemma ReusedLeads() returns (steps: seq<Step>)
    ensures OffloadRuns.Writable(W.Small(1), W.OneKey(), W.K1, 0, [])
    ensures OffloadRuns.Leads(W.Small(1), W.OneKey(), steps, Reused(), true)
  {
    var c := W.Small(1);
    W.OnlyIsWritable(1);
    OffloadRuns.OffloadGoesThrough(c, W.OneKey(), W.K1, 0, [], [9], true);
    var t := OffloadRuns.Offloaded(c, W.OneKey(), W.K1, 0, []);
    OffloadRuns.PublishGoesThrough(c, t, 0, true);
    var u := OffloadRuns.Published(c, t, 0);
    OffloadRuns.PutLeads(c, u, 0, W.K2, 1, [2], true);
    var a, b := OffloadRuns.OffloadSteps(W.K1, 0, [], [9]), OffloadRuns.PutSteps(0, W.K2, 1, [2]);
    OffloadRuns.Then(c, W.OneKey(), a, t, OffloadRuns.PUBLISHING, u, true);
    OffloadRuns.Then(c, W.OneKey(), a + OffloadRuns.PUBLISHING, u, b, Reused(), true);
    steps := a + OffloadRuns.PUBLISHING + b;
  }

  /** A run in which a reader of K1, stored as 1, copies 2: between its lookup and its copy
      K1 is offloaded and published, and its memory goes to another key. */
  lemma OvertakenReaderRun() returns (views: seq<View>, steps: seq<ReadStep>)
    ensures Run(W.Small(1), W.BLANK, views, steps)
    ensures var v := views[|steps|];
            && W.K1 in v.s.stored && v.s.stored[W.K1] == [1] && 0 in v.readers && v.readers[0].k == W.K1
            && 0 in v.copies && v.copies[0] == Some([2])
  {
    var c := W.Small(1);
    W.OneKeyPut(c, true);
    var between := ReusedLeads();
    views, steps := ReadingLeads(c, W.PUT_K1, W.OneKey(), between, Reused(), 2);
  }

  /** K1's memory was given back and went to K2 while K1 is still being published. */
  ghost function Reusing(): (s: State)
    requires OffloadRuns.Writable(W.Small(1), W.OneKey(), W.K1, 0, [])
  {
    var t := OffloadRuns.Offloaded(W.Small(1), W.OneKey(), W.K1, 0, []);
    OffloadRuns.WithKey(FinCancelled(OffloadRuns.InHand(t, 0)), W.K2, 1, [2])
  }

  lemma ReusingLeads() returns (steps: seq<Step>)
    ensures OffloadRuns.Writable(W.Small(1), W.OneKey(), W.K1, 0, [])
    ensures OffloadRuns.Leads(W.Small(1), Initial(W.BLANK), steps, Reusing(), true)
  {
    var c := W.Small(1);
    W.OffloadedLeads(true);
    var t := OffloadRuns.Offloaded(c, W.OneKey(), W.K1, 0, []);
    OffloadRuns.ReuseLeads(c, t, 0, 0, W.K2, 1, [2], true);
    var a := [FinDequeue(1), FinCancel] + OffloadRuns.PutSteps(0, W.K2, 1, [2]);
    OffloadRuns.Then(c, Initial(W.BLANK), W.UNTIL_OFFLOADED, t, a, Reusing(), true);
    steps := W.UNTIL_OFFLOADED + a;
  }

  /** A run in which a reader of K1, stored as 1, copies 2 although nobody else takes a step
      between its lookup and its copy: the lookup falls into the publishing of K1. */
  lemma WindowReaderRun() returns (views: seq<View>, steps: seq<ReadStep>)
    ensures Run(W.Small(1), W.BLANK, views, steps) && |steps| >= 4 && steps[|steps| - 4..] == LOOKUP + [Copy(0)]
    ensures var v := views[|steps|];
            && W.K1 in v.s.stored && v.s.stored[W.K1] == [1] && v.s.phase == Cancelled(W.K1)
            && 0 in v.copies && v.copies[0] == Some([2])
  {
    var c := W.Small(1);
    var before := ReusingLeads();
    Paths.Stay(OffloadRuns.Relation(c, true), Reusing());
    views, steps := ReadingLeads(c, before, Reusing(), [], Reusing(), 2);
    assert AsOthers([]) == [];
    assert steps == AsOthers(before) + (LOOKUP + [Copy(0)]);
  }

  /** K1 was put a second time, found no room in the ready queue and was taken out again; its
      memory went to K2. */
  ghost function RolledBack(): (s: State) {
    OffloadRuns.WithKey(OffloadRuns.WithoutKey(W.OneKey(), W.K1), W.K2, 1, [2])
  }

  /** A run in which that happens between a reader's lookup and its copy. */
  lemma RolledBackReaderRun() returns (views: seq<View>, steps: seq<ReadStep>)
    ensures Run(W.Small(1), W.BLANK, views, steps)
    ensures var v := views[|steps|]; 0 in v.readers && v.readers[0].k == W.K1 && v.copies == map[0 := Some([2])]
    ensures exists i :: 0 <= i < |steps| && steps[i] == Others(Client(PutAgain(1, W.K1, false)))
  {
    var c, s := W.Small(1), W.OneKey();
    W.OneKeyPut(c, true);
    OffloadRuns.RollBackLeads(c, s, 1, W.K1, true);
    var t := OffloadRuns.WithoutKey(s, W.K1);
    OffloadRuns.PutLeads(c, t, 0, W.K2, 1, [2], true);
    var a := [Client(PutAgain(1, W.K1, false)), Client(Unlink(1)), Client(Cancel(1))];
    var b := OffloadRuns.PutSteps(0, W.K2, 1, [2]);
    OffloadRuns.Then(c, s, a, t, b, RolledBack(), true);
    views, steps := ReadingLeads(c, W.PUT_K1, s, a + b, RolledBack(), 2);
    assert AsOthers(a + b)[0] == Others(Client(PutAgain(1, W.K1, false)));
    assert steps[|W.PUT_K1| + 3] == AsOthers(a + b)[0];
  }
}
