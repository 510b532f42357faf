/** What holds in every state of every run of the offload pipeline. */
module OffloadTheorems {
  import opened Basics
  import opened ValueIndex
  import opened Extents
  import opened OffloadState
  import opened OffloadData
  import D = OffloadData
  import opened OffloadSteps
  import opened OffloadClients
  import O = OffloadState
  import S = OffloadStages
  import A = OffloadAccounting

  // ---- Every step ----

  ghost predicate Inv(c: Config, s: State) {
    Consistent(c, s) && A.Account(c, s)
  }

  lemma AlwaysDefined(c: Config, s: State, step: Step)
    requires Consistent(c, s) && Enabled(c, s, step)
    ensures Defined(c, s, step)
  {
    match step
    case Client(call) => CallIsDefined(c, s, call);
    case PollProcess => PollFacts(c, s);
    case EngineProcess(_, _) => EngineDefined(c, s);
    case Complete(i, _, _) => assert DeviceData(c, s.index, s.disk, s.stored, s.rqsts[s.pipe.device[i]]);
    case FinProcess => FinDefined(c, s);
    case _ =>
  }

  lemma PollDequeueKeeps(c: Config, s: State, n: nat)
    requires Consistent(c, s) && s.pipe.pollBatch == [] && n <= |s.pipe.pollRing|
    ensures Consistent(c, s.(pipe := s.pipe.(pollBatch := s.pipe.pollRing[..n], pollRing := s.pipe.pollRing[n..])))
  {
    S.DequeueStages(s, n);
    DequeueConsistent(c, s, s.pipe.(pollBatch := s.pipe.pollRing[..n], pollRing := s.pipe.pollRing[n..]));
  }

  lemma EngineDequeueKeeps(c: Config, s: State, n: nat)
    requires Consistent(c, s) && s.pipe.engineBatch == [] && n <= |s.pipe.engineRing|
    ensures Consistent(c, s.(pipe := s.pipe.(engineBatch := s.pipe.engineRing[..n],
                                             engineRing := s.pipe.engineRing[n..])))
  {
    S.DequeueStages(s, n);
    DequeueConsistent(c, s, s.pipe.(engineBatch := s.pipe.engineRing[..n], engineRing := s.pipe.engineRing[n..]));
  }

  lemma FinDequeueKeeps(c: Config, s: State, n: nat)
    requires Consistent(c, s) && s.pipe.finBatch == [] && n <= |s.pipe.finRing|
    ensures Consistent(c, s.(pipe := s.pipe.(finBatch := s.pipe.finRing[..n], finRing := s.pipe.finRing[n..])))
  {
    S.DequeueStages(s, n);
    DequeueConsistent(c, s, s.pipe.(finBatch := s.pipe.finRing[..n], finRing := s.pipe.finRing[n..]));
  }

  lemma DequeueKept(c: Config, s: State, step: Step)
    requires Consistent(c, s) && Possible(c, s, step) && Defined(c, s, step)
    requires step.PollDequeue? || step.EngineDequeue? || step.FinDequeue?
    ensures Consistent(c, Next(c, s, step))
  {
    match step
    case PollDequeue(n) => PollDequeueKeeps(c, s, n);
    case EngineDequeue(n) => EngineDequeueKeeps(c, s, n);
    case FinDequeue(n) => FinDequeueKeeps(c, s, n);
  }

  lemma ProcessKept(c: Config, s: State, step: Step)
    requires Consistent(c, s) && Possible(c, s, step) && Defined(c, s, step)
    requires step.PollProcess? || step.EngineProcess? || step.Complete?
    ensures Consistent(c, Next(c, s, step))
  {
    match step
    case PollProcess => PollConsistent(c, s);
    case EngineProcess(lba, pad) => EngineConsistent(c, s, lba, pad);
    case Complete(i, ok, junk) => CompleteConsistent(c, s, i, ok, junk);
  }

  /** Every step keeps everything consistent. */
  lemma ConsistentKept(c: Config, s: State, step: Step)
    requires Consistent(c, s) && Enabled(c, s, step) && Defined(c, s, step)
    ensures Consistent(c, Next(c, s, step))
  {
    if step.Client? {
      CallKeeps(c, s, step.call);
    } else if step.PollDequeue? || step.EngineDequeue? || step.FinDequeue? {
      DequeueKept(c, s, step);
    } else if step.PollProcess? || step.EngineProcess? || step.Complete? {
      ProcessKept(c, s, step);
    } else {
      FinalizerKept(c, s, step);
    }
  }

  lemma FinalizerKept(c: Config, s: State, step: Step)
    requires Consistent(c, s) && Enabled(c, s, step) && Defined(c, s, step)
    requires step.FinCancel? || step.FinPoint? || step.FinProcess?
    ensures Consistent(c, Next(c, s, step))
  {
    match step
    case FinCancel => FinCancelConsistent(c, s);
    case FinPoint(_) => FinPointConsistent(c, s);
    case FinProcess => FinConsistent(c, s);
  }

  lemma InvKept(c: Config, s: State, step: Step)
    requires Inv(c, s) && Enabled(c, s, step)
    ensures Defined(c, s, step) && Inv(c, Next(c, s, step))
  {
    AlwaysDefined(c, s, step);
    ConsistentKept(c, s, step);
    A.AccountKept(c, s, step);
  }

  lemma InvInitially(c: Config, disk: Bytes)
    ensures Inv(c, Initial(disk))
  {
  }

  /** In every run no step ever dereferences something missing, and the invariant holds. */
  lemma {:induction false} InvAlways(c: Config, disk: Bytes, states: seq<State>, steps: seq<Step>, i: nat)
    requires O.Run(c, disk, states, steps) && i <= |steps|
    ensures Inv(c, states[i])
    ensures i < |steps| ==> Defined(c, states[i], steps[i]) && states[i + 1] == Next(c, states[i], steps[i])
  {
    if i == 0 {
      InvInitially(c, disk);
    } else {
      InvAlways(c, disk, states, steps, i - 1);
      InvKept(c, states[i - 1], steps[i - 1]);
    }
    if i < |steps| { AlwaysDefined(c, states[i], steps[i]); }
  }

  // ---- What a client sees ----

  /** The bytes a client's lookup followed by a copy, or a read from the device, gives. */
  ghost function Lookup(c: Config, s: State, k: Key): (v: Option<Bytes>) {
    match Get(s.index, k)
    case Found(PMEM, Memory(addr), size) => if addr in s.heap then Some(s.heap[addr]) else None
    case Found(DISK, Device(dev), size) =>
      var e := c.extent(dev.lba, size);
      if Inside(e, |s.disk|) && size <= e.length then Some(s.disk[e.start..e.start + size]) else None
    case _ => None
  }

  /** The key is as visible as it should be: stored keys are, with their bytes, and the one
      just being published is on the device while the tree still says memory. */
  ghost predicate VisibleAsStored(c: Config, s: State, k: Key) {
    && (Get(s.index, k).Found? <==> k in s.stored)
    && (Moving(s.phase) != Some(k) ==> Lookup(c, s, k) == if k in s.stored then Some(s.stored[k]) else None)
    && (Moving(s.phase) == Some(k) ==>
          && k in s.stored && Get(s.index, k).location == PMEM && (s.phase.Pointed? ==> Lookup(c, s, k) == None)
          && ToPublish(s) && D.OnDisk(c, s.disk, s.rqsts[s.pipe.finBatch[0]].lba, s.stored[k]))
  }

  lemma StoredLookup(c: Config, s: State, k: Key)
    requires KeysOk(c, s.index, s.heap, s.disk, s.stored, Moving(s.phase)) && Moving(s.phase) != Some(k)
    ensures VisibleAsStored(c, s, k)
  {
    if k in s.stored { assert WrapperData(c, s.heap, s.disk, s.index[k], s.stored[k]); }
  }

  lemma MovingLookup(c: Config, s: State, k: Key)
    requires MovingOk(s) && Moving(s.phase) == Some(k)
    requires StagesData(c, s.index, s.disk, s.stored, s.rqsts, s.pipe)
    ensures VisibleAsStored(c, s, k)
  {
    assert FinData(c, s.disk, s.stored, s.rqsts[s.pipe.finBatch[0]]);
  }

  lemma VisibleNow(c: Config, s: State, k: Key)
    requires Data(c, s) && MovingOk(s)
    ensures VisibleAsStored(c, s, k)
  {
    if Moving(s.phase) == Some(k) { MovingLookup(c, s, k); } else { StoredLookup(c, s, k); }
  }

  /** Offloading is invisible: at every moment of every run the visible keys are exactly those
      stored, and what they point at are the bytes that were put; except that the one key
      that is just being published is on the device while the tree still says memory. */
  lemma OffloadIsInvisible(c: Config, disk: Bytes, states: seq<State>, steps: seq<Step>, i: nat, k: Key)
    requires O.Run(c, disk, states, steps) && i <= |steps|
    ensures VisibleAsStored(c, states[i], k)
  {
    InvAlways(c, disk, states, steps, i);
    VisibleNow(c, states[i], k);
  }

  /** At every moment a reservation is refused exactly for the keys that are stored, in
      memory, on the device or on their way. */
  lemma ReservedIffAbsent(c: Config, disk: Bytes, states: seq<State>, steps: seq<Step>, i: nat, k: Key, size: nat,
                          addr: nat)
    requires O.Run(c, disk, states, steps) && i <= |steps|
    ensures Alloc(states[i].index, k, size, Granted(addr)).1.Reserved? <==> k !in states[i].stored
  {
    InvAlways(c, disk, states, steps, i);
    if k in states[i].stored { StoredIsVisible(c, states[i], k); }
  }

  lemma PutIsSeen(c: Config, s: State, w: nat, room: bool)
    requires MovingOk(s) && w in s.clients && s.clients[w].Reserving? && HoldOk(s, s.clients[w])
    ensures var h := s.clients[w]; h.k !in s.stored && Lookup(c, HasPut(s, w, room), h.k) == Some(h.bytes)
  {
  }

  /** And a Put makes exactly the bytes readable that its client wrote, under a key that was
      not stored: to careful clients a node is an insert-if-absent map. */
  lemma PutInserts(c: Config, disk: Bytes, states: seq<State>, steps: seq<Step>, i: nat)
    requires O.Run(c, disk, states, steps) && i < |steps| && steps[i].Client? && steps[i].call.PutReserved?
    ensures var s, h := states[i], states[i].clients[steps[i].call.w];
            && h.k !in s.stored && states[i + 1].stored == s.stored[h.k := h.bytes]
            && Lookup(c, states[i + 1], h.k) == Some(h.bytes)
  {
    InvAlways(c, disk, states, steps, i);
    assert HoldOk(states[i], states[i].clients[steps[i].call.w]);
    PutIsSeen(c, states[i], steps[i].call.w, steps[i].call.room);
  }

  /** A read through the pipeline that is answered OK gets the bytes that were stored when it
      was asked for, and none is told that its key does not exist. */
  lemma ReadsAreRight(c: Config, disk: Bytes, states: seq<State>, steps: seq<Step>, i: nat, id: Id)
    requires O.Run(c, disk, states, steps) && i <= |steps|
    requires id in states[i].answers && id in states[i].rqsts && states[i].rqsts[id].op == GET
    ensures id in states[i].wanted && states[i].answers[id].0 != KEY_NOT_FOUND
    ensures states[i].answers[id].0 == OK ==> states[i].answers[id].1 == states[i].wanted[id]
  {
    InvAlways(c, disk, states, steps, i);
  }

  /** Every request made is in exactly one place of the pipeline, unanswered and not
      returned, or in none, answered once and returned once. */
  lemma ExactlyOnce(c: Config, disk: Bytes, states: seq<State>, steps: seq<Step>, i: nat, id: Id)
    requires O.Run(c, disk, states, steps) && i <= |steps| && id in states[i].rqsts
    ensures id in states[i].calls && id in states[i].returned
    ensures || (S.Places(states[i].pipe, id) == 1 && states[i].calls[id] == 0 && states[i].returned[id] == 0)
            || (S.Places(states[i].pipe, id) == 0 && states[i].calls[id] == 1 && states[i].returned[id] == 1)
  {
    InvAlways(c, disk, states, steps, i);
    var s := states[i];
    assert S.Places(s.pipe, id) == multiset(S.UnansweredSet(s))[id];
  }

  /** The buffers in use are those of submitted transfers and of reads that completed and
      were not finalized; there are never more than the limit. */
  lemma BuffersBounded(c: Config, disk: Bytes, states: seq<State>, steps: seq<Step>, i: nat)
    requires O.Run(c, disk, states, steps) && i <= |steps|
    ensures states[i].ioBufsInUse == |states[i].pipe.device| + A.ReadsDone(states[i].rqsts, states[i].pipe)
    ensures 0 <= |states[i].pipe.device| <= states[i].ioBufsInUse <= c.maxIoBufs
  {
    InvAlways(c, disk, states, steps, i);
  }

  /** No two of these overlap on the device at any moment of a run: extents of keys stored
      on it, of writes under way, and of writes done and not yet published. */
  lemma OwnersNeverOverlap(c: Config, disk: Bytes, states: seq<State>, steps: seq<Step>, i: nat, o1: Owner, o2: Owner)
    requires O.Run(c, disk, states, steps) && i <= |steps| && o1 != o2
    requires var s := states[i];
             Live(s.index, s.stored, s.rqsts, s.pipe, o1) && Live(s.index, s.stored, s.rqsts, s.pipe, o2)
    ensures var s := states[i]; Disjoint(ExtentOf(c, s.index, s.rqsts, o1), ExtentOf(c, s.index, s.rqsts, o2))
  {
    InvAlways(c, disk, states, steps, i);
  }

  lemma NotLostElsewhere(c: Config, s: State, step: Step)
    requires Possible(c, s, step) && Defined(c, s, step) && !step.Complete?
    ensures Next(c, s, step).pipe.lost == s.pipe.lost
  {
    if step.Client? { CallLoses(c, s, step.call); }
  }

  lemma CallLoses(c: Config, s: State, call: Call)
    requires CallPossible(c, s, call) && CallDefined(s, call)
    ensures AfterCall(c, s, call).pipe.lost == s.pipe.lost
  {
    if !Asks(call) { CallFrame(c, s, call); }
  }

  lemma LostGrows(c: Config, s: State, step: Step)
    requires Possible(c, s, step) && Defined(c, s, step)
    ensures s.pipe.lost <= Next(c, s, step).pipe.lost
    ensures |Next(c, s, step).pipe.lost| > |s.pipe.lost| <==> step.Complete? && |s.pipe.finRing| >= c.ring
  {
    if !step.Complete? { NotLostElsewhere(c, s, step); }
  }

  /** A request is lost exactly when its transfer completes into a full finalizer ring: it
      stays unanswered for ever, and a read keeps its buffer. */
  lemma LostIffFinalizerFull(c: Config, disk: Bytes, states: seq<State>, steps: seq<Step>, i: nat)
    requires O.Run(c, disk, states, steps) && i < |steps|
    ensures states[i].pipe.lost <= states[i + 1].pipe.lost
    ensures |states[i + 1].pipe.lost| > |states[i].pipe.lost| <==>
              steps[i].Complete? && |states[i].pipe.finRing| >= c.ring
  {
    InvAlways(c, disk, states, steps, i);
    LostGrows(c, states[i], steps[i]);
  }

  lemma LostIsUnanswered(s: State, id: Id)
    requires S.Stages(s) && id in s.pipe.lost
    ensures Unanswered(s.calls, id)
  {
    S.InPipeIsKnown(s, id);
  }

  lemma {:induction false} LostStaysLost(c: Config, disk: Bytes, states: seq<State>, steps: seq<Step>, i: nat, j: nat,
                                         id: Id)
    requires O.Run(c, disk, states, steps) && i <= j <= |steps| && id in states[i].pipe.lost
    ensures id in states[j].pipe.lost && id in states[j].calls && states[j].calls[id] == 0
    decreases j - i
  {
    if i < j {
      LostIffFinalizerFull(c, disk, states, steps, i);
      LostStaysLost(c, disk, states, steps, i + 1, j, id);
    } else {
      InvAlways(c, disk, states, steps, i);
      LostIsUnanswered(states[i], id);
    }
  }

  lemma {:induction false} FitsInSet(q: seq<Id>, all: set<Id>)
    requires NoDuplicates(q) && forall x :: x in q ==> x in all
    ensures |q| <= |all|
  {
    if q != [] {
      var n := |q| - 1;
      FitsInSet(q[..n], all - {q[n]});
    }
  }

  /** A transfer that completes is unanswered and not yet with the finalizer. */
  lemma FinalizerHasFewer(s: State, i: nat)
    requires S.Stages(s) && i < |s.pipe.device|
    ensures |s.pipe.finRing| < |S.UnansweredSet(s)|
  {
    var p, all := s.pipe, S.UnansweredSet(s);
    var id := p.device[i];
    forall x | x in p.finRing ensures x in all - {id} && multiset(p.finRing)[x] == 1 {
      assert S.Places(p, x) == multiset(all)[x];
      assert S.Places(p, id) == multiset(all)[id];
    }
    forall a, b | 0 <= a < b < |p.finRing| ensures p.finRing[a] != p.finRing[b] {
      assert p.finRing == p.finRing[..b] + [p.finRing[b]] + p.finRing[b + 1..];
      assert multiset(p.finRing)[p.finRing[b]] == 1;
    }
    assert S.Places(p, id) == multiset(all)[id];
    FitsInSet(p.finRing, all - {id});
  }

  lemma CompletionFindsRoom(c: Config, disk: Bytes, states: seq<State>, steps: seq<Step>, i: nat)
    requires O.Run(c, disk, states, steps) && i < |steps| && steps[i].Complete?
    ensures |states[i].pipe.finRing| < |S.UnansweredSet(states[i])|
  {
    InvAlways(c, disk, states, steps, i);
    FinalizerHasFewer(states[i], steps[i].i);
  }

  /** Nothing is lost in a run in which never more requests are unanswered than the
      finalizer's ring holds. */
  lemma {:induction false} NothingLostWithinRing(c: Config, disk: Bytes, states: seq<State>, steps: seq<Step>, i: nat)
    requires O.Run(c, disk, states, steps) && i <= |steps|
    requires forall j :: 0 <= j < i ==> |S.UnansweredSet(states[j])| <= c.ring
    ensures states[i].pipe.lost == []
  {
    if i > 0 {
      NothingLostWithinRing(c, disk, states, steps, i - 1);
      LostIffFinalizerFull(c, disk, states, steps, i - 1);
      if steps[i - 1].Complete? { CompletionFindsRoom(c, disk, states, steps, i - 1); }
    }
  }

  // ---- Why the clients' assumptions are needed ----

  /** Two offloads of one key: once the first is finalized, the engine finds the second
      one's memory gone, whatever else the state is. */
  lemma SecondOffloadFindsMemoryGone(s: State, second: Id)
    requires ToPublish(s) && Known(s, second) && second != s.pipe.finBatch[0]
    requires s.rqsts[second].op == UPDATE && s.rqsts[second].value == s.rqsts[s.pipe.finBatch[0]].value
    ensures FinCancelled(s).rqsts[second] == s.rqsts[second] && s.rqsts[second].value !in FinCancelled(s).heap
  {
  }

  /** A key removed while its offload is under way comes back: finalizing publishes it
      although it is no longer stored. */
  lemma RemovedKeyComesBackIff(c: Config, s: State)
    requires s.pipe.finBatch != [] && Known(s, s.pipe.finBatch[0])
    requires var r := s.rqsts[s.pipe.finBatch[0]];
             r.op == UPDATE && r.key in s.index && s.index[r.key].location == EMPTY && r.key !in s.stored
    ensures var k := s.rqsts[s.pipe.finBatch[0]].key;
            && k !in FinOne(c, s).stored
            && (Get(FinOne(c, s).index, k).Found? <==> s.rqsts[s.pipe.finBatch[0]].result)
  {
  }
}
