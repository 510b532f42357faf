/** Clients in the middle of a put or a removal, and the finalizer in the middle of
    publishing: what each of them relies on stays while everybody else goes on. */
module OffloadClients {
  import opened Basics
  import opened ValueIndex
  import opened OffloadState
  import opened OffloadData
  import opened OffloadSteps
  import S = OffloadStages

  // ---- The value being published ----

  /** Nothing that the finalizer relies on changed. */
  ghost predicate MovingSame(s: State, s': State) {
    && s'.phase == s.phase && s'.pipe.finBatch == s.pipe.finBatch
    && (!s.phase.Idle? && s.pipe.finBatch != [] && s.pipe.finBatch[0] in s.rqsts ==>
          s.pipe.finBatch[0] in s'.rqsts && s'.rqsts[s.pipe.finBatch[0]] == s.rqsts[s.pipe.finBatch[0]])
    && (!s.phase.Idle? && s.phase.k in s.stored && s.phase.k in s.index ==>
          && s.phase.k in s'.stored && s'.stored[s.phase.k] == s.stored[s.phase.k]
          && s.phase.k in s'.index && s'.index[s.phase.k] == s.index[s.phase.k])
  }

  lemma MovingFrame(s: State, s': State)
    requires MovingOk(s) && MovingSame(s, s')
    ensures MovingOk(s')
  {
  }

  /** A step works on a request that is elsewhere in the pipeline. */
  lemma MovingElsewhere(s: State, s': State, p1: Pipe, id: Id)
    requires S.Stages(s) && MovingOk(s) && S.OneMore(p1, s.pipe, id) && SameMemory(s, s')
    requires p1.finBatch == s.pipe.finBatch && s'.pipe.finBatch == s.pipe.finBatch
    requires forall x :: x in s.rqsts && x != id ==> x in s'.rqsts && s'.rqsts[x] == s.rqsts[x]
    ensures MovingOk(s')
  {
    if !s.phase.Idle? {
      HeadOfFinBatch(s, p1, id);
      MovingFrame(s, s');
    }
  }

  // ---- Clients ----

  /** The client has memory that is not, or no longer, a stored key's. */
  predicate Owns(h: Holding) {
    !h.Removing?
  }

  /** What a client in the middle of a call relies on. */
  ghost predicate HoldOk(s: State, h: Holding) {
    && h.k in s.index && s.index[h.k].ptr.Memory?
    && (Owns(h) ==> h.k !in s.stored && s.index[h.k].ptr.addr in s.heap && Unshared(s, s.index[h.k].ptr.addr))
    && (h.Reserving? ==>
          s.index[h.k].ptr.addr == h.addr && s.index[h.k].size == |h.bytes| && s.heap[h.addr] == h.bytes)
    && (h.Removing? ==> h.k in s.stored && ReservedNotPublished(s.index[h.k]) && NoneUnanswered(s, h.k))
  }

  /** Two clients work on different keys, and in different memory. */
  predicate Apart(index: Index, h1: Holding, h2: Holding) {
    && h1.k != h2.k
    && (Owns(h1) && Owns(h2) && h1.k in index && h2.k in index ==> index[h1.k].ptr != index[h2.k].ptr)
  }

  ghost predicate ClientsOk(s: State) {
    && (forall w :: w in s.clients ==> HoldOk(s, s.clients[w]))
    && (forall w1, w2 :: w1 in s.clients && w2 in s.clients && w1 != w2 ==>
          Apart(s.index, s.clients[w1], s.clients[w2]))
  }

  /** Requests under way are not for more keys than before. */
  ghost predicate FewerUnderWay(s: State, s': State) {
    forall id :: id in s'.rqsts && Unanswered(s'.calls, id) ==>
                   id in s.rqsts && Unanswered(s.calls, id) && s.rqsts[id].key == s'.rqsts[id].key
  }

  /** What memory others have is still not a stored key's: only k may be, and that is elsewhere. */
  lemma UnsharedFrame(s: State, s': State, a: nat, k: Key)
    requires Unshared(s, a) && Elsewhere(s.index, s'.index, s.stored, s'.stored, k)
    requires forall x :: x != k && Moving(s'.phase) != Some(x) ==> Moving(s.phase) != Some(x)
    requires k in s'.stored && k in s'.index && s'.index[k].location == PMEM && Moving(s'.phase) != Some(k) ==>
               s'.index[k].ptr != Memory(a)
    ensures Unshared(s', a)
  {
  }

  /** A client whose key is not k does not notice a change at k. */
  lemma HoldFrame(s: State, s': State, h: Holding, k: Key)
    requires HoldOk(s, h) && h.k != k && Elsewhere(s.index, s'.index, s.stored, s'.stored, k)
    requires Owns(h) ==> s.index[h.k].ptr.addr in s'.heap
                         && s'.heap[s.index[h.k].ptr.addr] == s.heap[s.index[h.k].ptr.addr]
    requires Owns(h) ==> Unshared(s', s.index[h.k].ptr.addr)
    requires h.Removing? ==> NoneUnanswered(s', h.k)
    ensures HoldOk(s', h)
  {
  }

  lemma FewerFor(s: State, s': State, k: Key)
    requires FewerUnderWay(s, s') && NoneUnanswered(s, k)
    ensures NoneUnanswered(s', k)
  {
  }

  lemma ClientsFrame(s: State, s': State)
    requires ClientsOk(s) && SameMemory(s, s') && FewerUnderWay(s, s')
    ensures ClientsOk(s')
  {
    forall w | w in s'.clients ensures HoldOk(s', s'.clients[w]) {
      var h := s.clients[w];
      assert HoldOk(s, h);
      if h.Removing? { FewerFor(s, s', h.k); }
    }
  }

  /** The tree changes at a key in nobody's hands. */
  lemma TreeClients(s: State, s': State, k: Key)
    requires ClientsOk(s) && NoneHolds(s.clients, k) && s'.clients == s.clients
    requires Elsewhere(s.index, s'.index, s.stored, s'.stored, k)
    requires forall w :: w in s.clients ==> HoldOk(s', s.clients[w])
    ensures ClientsOk(s')
  {
  }

  /** One client goes on, done or with something else in its hands. */
  lemma OneClient(s: State, s': State, w: nat, k: Key)
    requires ClientsOk(s) && Elsewhere(s.index, s'.index, s.stored, s'.stored, k)
    requires forall x :: x in s'.clients && x != w ==> x in s.clients && s'.clients[x] == s.clients[x]
    requires forall x :: x in s'.clients && x != w ==> s.clients[x].k != k && HoldOk(s', s.clients[x])
    requires w in s'.clients ==> s'.clients[w].k == k && HoldOk(s', s'.clients[w])
    requires w in s'.clients ==> forall x :: x in s'.clients && x != w ==> Apart(s'.index, s'.clients[w], s.clients[x])
    ensures ClientsOk(s')
  {
    forall w1, w2 | w1 in s'.clients && w2 in s'.clients && w1 != w2
      ensures Apart(s'.index, s'.clients[w1], s'.clients[w2])
    {
      if w1 != w && w2 != w { assert Apart(s.index, s.clients[w1], s.clients[w2]); }
    }
  }

  /** A request for a key nobody is putting or removing. */
  lemma SubmitClients(s: State, op: Kind, k: Key, value: nat, size: nat)
    requires ClientsOk(s) && k in s.stored && NoneHolds(s.clients, k)
    ensures ClientsOk(Submit(s, op, k, value, size))
  {
    var s' := Submit(s, op, k, value, size);
    forall w | w in s'.clients ensures HoldOk(s', s'.clients[w]) {
      SubmitHold(s, op, k, value, size, s.clients[w]);
    }
  }

  lemma SubmitHold(s: State, op: Kind, k: Key, value: nat, size: nat, h: Holding)
    requires HoldOk(s, h) && k in s.stored && h.k != k
    ensures HoldOk(Submit(s, op, k, value, size), h)
  {
  }

  /** A key with a write or a removal under way is in nobody's hands. */
  lemma NobodyHolds(s: State, id: Id)
    requires ClientsOk(s) && id in s.rqsts && Unanswered(s.calls, id) && s.rqsts[id].key in s.stored
    ensures NoneHolds(s.clients, s.rqsts[id].key)
  {
    forall w | w in s.clients ensures s.clients[w].k != s.rqsts[id].key {
      assert HoldOk(s, s.clients[w]);
    }
  }

  /** Finalizing changes the tree at a key in nobody's hands, and not so that it comes into
      memory. */
  lemma FinClients(s: State, s': State, k: Key)
    requires ClientsOk(s) && NoneHolds(s.clients, k) && s'.clients == s.clients && s'.heap == s.heap
    requires Elsewhere(s.index, s'.index, s.stored, s'.stored, k) && FewerUnderWay(s, s')
    requires k in s'.stored && k in s'.index && s'.index[k].location == PMEM ==> Moving(s'.phase) == Some(k)
    requires forall x :: x != k && Moving(s'.phase) != Some(x) ==> Moving(s.phase) != Some(x)
    ensures ClientsOk(s')
  {
    forall w | w in s.clients ensures HoldOk(s', s.clients[w]) {
      var h := s.clients[w];
      assert HoldOk(s, h);
      if Owns(h) { UnsharedFrame(s, s', s.index[h.k].ptr.addr, k); } else { FewerFor(s, s', h.k); }
      HoldFrame(s, s', h, k);
    }
    TreeClients(s, s', k);
  }

  /** Memory of a key in nobody's hands is given back. */
  lemma CancelClients(s: State, s': State, k: Key, a: nat)
    requires ClientsOk(s) && s.phase.Idle? && s'.clients == s.clients && s'.index == s.index && s'.stored == s.stored
    requires k in s.stored && k in s.index && s.index[k].location == PMEM && s.index[k].ptr == Memory(a)
    requires s'.heap == s.heap - {a} && s'.phase == Cancelled(k) && FewerUnderWay(s, s')
    ensures ClientsOk(s')
  {
    forall w | w in s'.clients ensures HoldOk(s', s'.clients[w]) {
      var h := s.clients[w];
      assert HoldOk(s, h);
      if h.Removing? { FewerFor(s, s', h.k); }
    }
  }

  // ---- Reserving ----

  /** A reservation touches one invisible wrapper, or nothing. */
  lemma AllocShape(index: Index, k: Key, size: nat, g: Grant)
    ensures var r := Alloc(index, k, size, g);
            && (k in index && index[k].location != EMPTY ==> r.0 == index && !r.1.Reserved?)
            && (k !in index || index[k].location == EMPTY ==> k in r.0 ==> r.0[k].location == EMPTY)
            && (forall x :: x != k ==> (x in index <==> x in r.0) && (x in index ==> r.0[x] == index[x]))
            && (r.1.Reserved? ==> g == Granted(r.1.addr) && k in r.0
                                  && r.0[k].ptr == Memory(r.1.addr) && r.0[k].size == size)
  {
  }

  /** Stored keys are visible, also the one that is being published. */
  lemma StoredIsVisible(c: Config, s: State, k: Key)
    requires Data(c, s) && MovingOk(s) && k in s.stored
    ensures k in s.index && s.index[k].location != EMPTY
  {
    if Moving(s.phase) != Some(k) { assert WrapperData(c, s.heap, s.disk, s.index[k], s.stored[k]); }
  }

  lemma ReserveIndex(c: Config, s: State, k: Key, size: nat, g: Grant)
    requires Data(c, s) && MovingOk(s) && PipeUnanswered(s)
    ensures Data(c, s.(index := Alloc(s.index, k, size, g).0))
    ensures Alloc(s.index, k, size, g).1.Reserved? ==> k !in s.stored
  {
    AllocShape(s.index, k, size, g);
    if k in s.stored {
      StoredIsVisible(c, s, k);
    } else {
      HiddenKeeps(c, s, k, Alloc(s.index, k, size, g).0);
    }
  }

  lemma ReserveData(c: Config, s: State, w: nat, k: Key, size: nat, g: Grant, junk: Bytes)
    requires Data(c, s) && MovingOk(s) && PipeUnanswered(s) && (g.Granted? ==> g.addr !in s.heap)
    ensures Data(c, HasReserved(s, w, k, size, g, junk))
  {
    ReserveIndex(c, s, k, size, g);
    AllocShape(s.index, k, size, g);
    var r := Alloc(s.index, k, size, g);
    if r.1.Reserved? { MemoryKeeps(c, s.(index := r.0), s.heap[r.1.addr := junk]); }
  }

  lemma ReserveClients(c: Config, s: State, w: nat, k: Key, size: nat, g: Grant, junk: Bytes)
    requires Data(c, s) && MovingOk(s) && ClientsOk(s) && NoneHolds(s.clients, k) && w !in s.clients
    requires g.Granted? ==> g.addr !in s.heap && |junk| == size
    ensures MovingOk(HasReserved(s, w, k, size, g, junk)) && ClientsOk(HasReserved(s, w, k, size, g, junk))
  {
    AllocShape(s.index, k, size, g);
    var s' := HasReserved(s, w, k, size, g, junk);
    if k in s.stored {
      StoredIsVisible(c, s, k);
      assert s' == s;
    } else {
      MovingFrame(s, s');
      FreshIsUnshared(c, s);
      ReserveHolds(s, s', w, k, size, g, junk);
    }
  }

  /** Clients other than the one reserving keep what they have. */
  lemma ReserveOther(s: State, s': State, w: nat, k: Key, size: nat, g: Grant, junk: Bytes, h: Holding)
    requires HoldOk(s, h) && h.k != k && k !in s.stored
    requires s' == HasReserved(s, w, k, size, g, junk) && (g.Granted? ==> g.addr !in s.heap)
    ensures HoldOk(s', h) && (Owns(h) && g.Granted? ==> s.index[h.k].ptr != Memory(g.addr))
  {
    AllocShape(s.index, k, size, g);
    if Owns(h) { UnsharedFrame(s, s', s.index[h.k].ptr.addr, k); }
    HoldFrame(s, s', h, k);
  }

  lemma ReservedHold(s: State, s': State, w: nat, k: Key, size: nat, g: Grant, junk: Bytes)
    requires k !in s.stored && Alloc(s.index, k, size, g).1.Reserved?
    requires g.Granted? ==> |junk| == size && Unshared(s, g.addr)
    requires s' == HasReserved(s, w, k, size, g, junk)
    ensures w in s'.clients && HoldOk(s', s'.clients[w])
  {
    AllocShape(s.index, k, size, g);
    UnsharedFrame(s, s', g.addr, k);
  }

  lemma ReserveHolds(s: State, s': State, w: nat, k: Key, size: nat, g: Grant, junk: Bytes)
    requires ClientsOk(s) && NoneHolds(s.clients, k) && w !in s.clients && k !in s.stored
    requires g.Granted? ==> g.addr !in s.heap && |junk| == size && Unshared(s, g.addr)
    requires s' == HasReserved(s, w, k, size, g, junk)
    ensures ClientsOk(s')
  {
    AllocShape(s.index, k, size, g);
    forall x | x in s.clients
      ensures HoldOk(s', s.clients[x]) && (w in s'.clients ==> Apart(s'.index, s'.clients[w], s.clients[x]))
    {
      ReserveOther(s, s', w, k, size, g, junk, s.clients[x]);
    }
    if Alloc(s.index, k, size, g).1.Reserved? { ReservedHold(s, s', w, k, size, g, junk); }
    OneClient(s, s', w, k);
  }

  /** Memory nobody has is not a stored key's. */
  lemma FreshIsUnshared(c: Config, s: State)
    requires KeysOk(c, s.index, s.heap, s.disk, s.stored, Moving(s.phase))
    ensures forall a :: a !in s.heap ==> Unshared(s, a)
  {
    forall a | a !in s.heap ensures Unshared(s, a) {
      forall k | k in s.stored && k in s.index && s.index[k].location == PMEM && Moving(s.phase) != Some(k)
        ensures s.index[k].ptr != Memory(a)
      {
        assert WrapperData(c, s.heap, s.disk, s.index[k], s.stored[k]);
      }
    }
  }

  // ---- Filling ----

  lemma FillData(c: Config, s: State, w: nat, v: Bytes)
    requires Data(c, s) && w in s.clients && s.clients[w].Reserving? && HoldOk(s, s.clients[w])
    ensures Data(c, HasFilled(s, w, v))
  {
    MemoryKeeps(c, s, s.heap[s.clients[w].addr := v]);
  }

  lemma FillClients(s: State, w: nat, v: Bytes)
    requires MovingOk(s) && ClientsOk(s)
    requires w in s.clients && s.clients[w].Reserving? && |v| == |s.clients[w].bytes|
    ensures MovingOk(HasFilled(s, w, v)) && ClientsOk(HasFilled(s, w, v))
  {
    var s', k := HasFilled(s, w, v), s.clients[w].k;
    MovingFrame(s, s');
    assert HoldOk(s, s.clients[w]);
    UnsharedFrame(s, s', s.clients[w].addr, k);
    forall x | x in s.clients && x != w
      ensures s.clients[x].k != k && HoldOk(s', s.clients[x]) && Apart(s'.index, s'.clients[w], s.clients[x])
    {
      FillOther(s, s', w, v, x);
    }
    OneClient(s, s', w, k);
  }

  lemma FillOther(s: State, s': State, w: nat, v: Bytes, x: nat)
    requires w in s.clients && s.clients[w].Reserving? && HoldOk(s, s.clients[w]) && s' == HasFilled(s, w, v)
    requires x in s.clients && HoldOk(s, s.clients[x]) && Apart(s.index, s.clients[w], s.clients[x])
    ensures HoldOk(s', s.clients[x]) && Apart(s'.index, s'.clients[w], s.clients[x])
  {
    if Owns(s.clients[x]) { UnsharedFrame(s, s', s.index[s.clients[x].k].ptr.addr, s.clients[w].k); }
    HoldFrame(s, s', s.clients[x], s.clients[w].k);
  }

  // ---- Putting ----

  lemma PutData(c: Config, s: State, w: nat, room: bool)
    requires Data(c, s) && PipeUnanswered(s) && ClientsOk(s) && w in s.clients && s.clients[w].Reserving?
    ensures Data(c, HasPut(s, w, room))
  {
    var h := s.clients[w];
    assert HoldOk(s, h) && Owns(h);
    PutKeeps(c, s, h.k, h.bytes);
  }

  lemma PutHold(s: State, w: nat, room: bool)
    requires MovingOk(s) && w in s.clients && s.clients[w].Reserving? && HoldOk(s, s.clients[w])
    requires NoneUnanswered(s, s.clients[w].k)
    ensures MovingOk(HasPut(s, w, room)) && (!room ==> HoldOk(HasPut(s, w, room), Removing(s.clients[w].k)))
  {
    MovingFrame(s, HasPut(s, w, room));
  }

  lemma PutClients(s: State, w: nat, room: bool)
    requires MovingOk(s) && ClientsOk(s) && w in s.clients && s.clients[w].Reserving?
    requires NoneUnanswered(s, s.clients[w].k)
    ensures MovingOk(HasPut(s, w, room)) && ClientsOk(HasPut(s, w, room))
  {
    var k, s' := s.clients[w].k, HasPut(s, w, room);
    PutHold(s, w, room);
    forall x | x in s.clients && x != w
      ensures s.clients[x].k != k && HoldOk(s', s.clients[x]) && Apart(s'.index, Removing(k), s.clients[x])
    {
      PutOther(s, s', w, room, x);
    }
    TreeElsewhere(s.index, s.stored, k, s.clients[w].bytes, DeviceAddr(0, 0));
    OneClient(s, s', w, k);
  }

  /** The memory that becomes readable is nobody else's. */
  lemma PutOther(s: State, s': State, w: nat, room: bool, x: nat)
    requires w in s.clients && s.clients[w].Reserving? && HoldOk(s, s.clients[w]) && s' == HasPut(s, w, room)
    requires x in s.clients && HoldOk(s, s.clients[x]) && Apart(s.index, s.clients[w], s.clients[x])
    ensures HoldOk(s', s.clients[x])
  {
    if Owns(s.clients[x]) { UnsharedFrame(s, s', s.index[s.clients[x].k].ptr.addr, s.clients[w].k); }
    HoldFrame(s, s', s.clients[x], s.clients[w].k);
  }

  /** Somebody is about to take a key out that nothing else is going on with. */
  lemma RemovingStarts(s: State, w: nat, k: Key)
    requires ClientsOk(s) && NoneHolds(s.clients, k) && w !in s.clients && HoldOk(s, Removing(k))
    ensures ClientsOk(s.(clients := s.clients[w := Removing(k)]))
  {
    var s' := s.(clients := s.clients[w := Removing(k)]);
    forall x | x in s.clients ensures HoldOk(s', s.clients[x]) {
      SameHold(s, s', s.clients[x]);
    }
    SameHold(s, s', Removing(k));
    OneClient(s, s', w, k);
  }

  lemma SameHold(s: State, s': State, h: Holding)
    requires HoldOk(s, h) && s' == s.(clients := s'.clients)
    ensures HoldOk(s', h)
  {
    if Owns(h) { assert Unshared(s', s.index[h.k].ptr.addr); }
  }

  /** What is being published has a request under way. */
  lemma MovingIsUnderWay(s: State)
    requires S.Stages(s) && MovingOk(s) && !s.phase.Idle?
    ensures !NoneUnanswered(s, s.phase.k)
  {
    var id := s.pipe.finBatch[0];
    StagedIsUnanswered(s);
    assert !Absent(s.pipe, id);
  }

  /** A visible key that nothing is going on with is in memory of its own. */
  lemma VisibleInMemory(c: Config, s: State, k: Key)
    requires S.Stages(s) && Data(c, s) && MovingOk(s) && NothingFor(s, k)
    requires k in s.index && s.index[k].location == PMEM
    ensures k in s.stored && Moving(s.phase) != Some(k) && HoldOk(s, Removing(k))
    ensures Put(s.index, k).0 == s.index
  {
    forall id | id in s.rqsts && Unanswered(s.calls, id) ensures s.rqsts[id].key != k {
      assert s.rqsts[id].op in {GET, UPDATE, REMOVE};
    }
    if !s.phase.Idle? { MovingIsUnderWay(s); }
    assert WrapperData(c, s.heap, s.disk, s.index[k], s.stored[k]);
  }

  // ---- Removing ----

  lemma UnlinkData(c: Config, s: State, w: nat)
    requires Data(c, s) && PipeUnanswered(s) && w in s.clients && s.clients[w].Removing? && HoldOk(s, s.clients[w])
    ensures Data(c, HasUnlinked(s, w))
  {
    RemoveKeeps(c, s, s.clients[w].k);
  }

  /** The memory of the key just hidden is in the client's hands. */
  lemma UnlinkedHold(c: Config, s: State, s': State, w: nat)
    requires KeysOk(c, s.index, s.heap, s.disk, s.stored, Moving(s.phase))
    requires w in s.clients && s.clients[w].Removing? && HoldOk(s, s.clients[w]) && s' == HasUnlinked(s, w)
    requires Moving(s.phase) != Some(s.clients[w].k)
    ensures HoldOk(s', Cancelling(s.clients[w].k))
  {
    var k := s.clients[w].k;
    assert WrapperData(c, s.heap, s.disk, s.index[k], s.stored[k]);
    forall x | x in s'.stored && x in s'.index && s'.index[x].location == PMEM && Moving(s'.phase) != Some(x)
      ensures s'.index[x].ptr != s.index[k].ptr
    {
      assert x != k && s'.index[x] == s.index[x];
    }
    assert Unshared(s', s'.index[k].ptr.addr);
  }

  lemma UnlinkOther(s: State, s': State, w: nat, x: nat)
    requires w in s.clients && s.clients[w].Removing? && HoldOk(s, s.clients[w]) && s' == HasUnlinked(s, w)
    requires Moving(s.phase) != Some(s.clients[w].k)
    requires x in s.clients && HoldOk(s, s.clients[x]) && Apart(s.index, s.clients[w], s.clients[x])
    ensures HoldOk(s', s.clients[x]) && Apart(s'.index, Cancelling(s.clients[w].k), s.clients[x])
  {
    if Owns(s.clients[x]) { UnsharedFrame(s, s', s.index[s.clients[x].k].ptr.addr, s.clients[w].k); }
    HoldFrame(s, s', s.clients[x], s.clients[w].k);
  }

  lemma UnlinkMoving(s: State, w: nat)
    requires S.Stages(s) && MovingOk(s) && w in s.clients && s.clients[w].Removing? && HoldOk(s, s.clients[w])
    ensures MovingOk(HasUnlinked(s, w)) && Moving(s.phase) != Some(s.clients[w].k)
  {
    if !s.phase.Idle? { MovingIsUnderWay(s); }
    MovingFrame(s, HasUnlinked(s, w));
  }

  lemma UnlinkClients(c: Config, s: State, w: nat)
    requires KeysOk(c, s.index, s.heap, s.disk, s.stored, Moving(s.phase)) && S.Stages(s) && MovingOk(s) && ClientsOk(s)
    requires w in s.clients && s.clients[w].Removing?
    ensures MovingOk(HasUnlinked(s, w)) && ClientsOk(HasUnlinked(s, w))
  {
    var k, s' := s.clients[w].k, HasUnlinked(s, w);
    assert HoldOk(s, s.clients[w]);
    UnlinkMoving(s, w);
    UnlinkedHold(c, s, s', w);
    forall x | x in s.clients && x != w
      ensures s.clients[x].k != k && HoldOk(s', s.clients[x]) && Apart(s'.index, Cancelling(k), s.clients[x])
    {
      UnlinkOther(s, s', w, x);
    }
    TreeElsewhere(s.index, s.stored, k, [], DeviceAddr(0, 0));
    OneClient(s, s', w, k);
  }

  lemma FreeData(c: Config, s: State, w: nat)
    requires Data(c, s) && w in s.clients && s.clients[w].Cancelling? && HoldOk(s, s.clients[w])
    ensures Data(c, HasCancelled(s, w))
  {
    MemoryKeeps(c, s, s.heap - {s.index[s.clients[w].k].ptr.addr});
  }

  lemma FreeClients(s: State, w: nat)
    requires MovingOk(s) && ClientsOk(s) && w in s.clients && s.clients[w].Cancelling?
    ensures s.clients[w].k in s.index && s.index[s.clients[w].k].ptr.Memory?
    ensures MovingOk(HasCancelled(s, w)) && ClientsOk(HasCancelled(s, w))
  {
    assert HoldOk(s, s.clients[w]);
    var k, s' := s.clients[w].k, HasCancelled(s, w);
    MovingFrame(s, s');
    forall x | x in s.clients && x != w ensures s.clients[x].k != k && HoldOk(s', s.clients[x]) {
      FreeOther(s, s', w, x);
    }
    OneClient(s, s', w, k);
  }

  lemma FreeOther(s: State, s': State, w: nat, x: nat)
    requires w in s.clients && s.clients[w].Cancelling? && HoldOk(s, s.clients[w]) && s' == HasCancelled(s, w)
    requires x in s.clients && HoldOk(s, s.clients[x]) && Apart(s.index, s.clients[w], s.clients[x])
    ensures HoldOk(s', s.clients[x])
  {
    if Owns(s.clients[x]) { UnsharedFrame(s, s', s.index[s.clients[x].k].ptr.addr, s.clients[w].k); }
    HoldFrame(s, s', s.clients[x], s.clients[w].k);
  }

  // ---- Every call that asks nothing of the pipeline ----

  ghost predicate Consistent(c: Config, s: State) {
    S.Stages(s) && Data(c, s) && MovingOk(s) && ClientsOk(s)
  }

  lemma ReserveCall(c: Config, s: State, w: nat, k: Key, size: nat, g: Grant, junk: Bytes)
    requires Consistent(c, s) && w !in s.clients && NoneHolds(s.clients, k)
    requires g.Granted? ==> g.addr !in s.heap && |junk| == size
    ensures Consistent(c, HasReserved(s, w, k, size, g, junk))
  {
    StagedIsUnanswered(s);
    S.SameKeeps(s, HasReserved(s, w, k, size, g, junk));
    ReserveData(c, s, w, k, size, g, junk);
    ReserveClients(c, s, w, k, size, g, junk);
  }

  lemma FillCall(c: Config, s: State, w: nat, v: Bytes)
    requires Consistent(c, s) && w in s.clients && s.clients[w].Reserving? && |v| == |s.clients[w].bytes|
    ensures Consistent(c, HasFilled(s, w, v))
  {
    S.SameKeeps(s, HasFilled(s, w, v));
    FillData(c, s, w, v);
    FillClients(s, w, v);
  }

  lemma PutCall(c: Config, s: State, w: nat, room: bool)
    requires Consistent(c, s) && w in s.clients && s.clients[w].Reserving?
    ensures Consistent(c, HasPut(s, w, room))
  {
    StagedIsUnanswered(s);
    S.SameKeeps(s, HasPut(s, w, room));
    PutData(c, s, w, room);
    assert HoldOk(s, s.clients[w]);
    NoneForAbsent(s, s.clients[w].k);
    PutClients(s, w, room);
  }

  lemma PutAgainCall(c: Config, s: State, w: nat, k: Key, room: bool)
    requires Consistent(c, s) && w !in s.clients && k in s.index && s.index[k].location == PMEM && NothingFor(s, k)
    ensures Consistent(c, s.(index := Put(s.index, k).0, clients := AfterPut(s.clients, w, k, room)))
  {
    VisibleInMemory(c, s, k);
    if room {
      assert s.clients - {w} == s.clients;
    } else {
      RemoveFromMemoryCall(c, s, w, k);
    }
  }

  lemma RemoveFromMemoryCall(c: Config, s: State, w: nat, k: Key)
    requires Consistent(c, s) && w !in s.clients && k in s.index && s.index[k].location == PMEM && NothingFor(s, k)
    ensures Consistent(c, s.(clients := s.clients[w := Removing(k)]))
  {
    VisibleInMemory(c, s, k);
    S.SameKeeps(s, s.(clients := s.clients[w := Removing(k)]));
    RemovingStarts(s, w, k);
  }

  lemma UnlinkCall(c: Config, s: State, w: nat)
    requires Consistent(c, s) && w in s.clients && s.clients[w].Removing?
    ensures Consistent(c, HasUnlinked(s, w))
  {
    StagedIsUnanswered(s);
    S.SameKeeps(s, HasUnlinked(s, w));
    assert HoldOk(s, s.clients[w]);
    UnlinkData(c, s, w);
    UnlinkClients(c, s, w);
  }

  lemma CancelCall(c: Config, s: State, w: nat)
    requires Consistent(c, s) && w in s.clients && s.clients[w].Cancelling?
    ensures CallDefined(s, Cancel(w)) && Consistent(c, HasCancelled(s, w))
  {
    FreeClients(s, w);
    S.SameKeeps(s, HasCancelled(s, w));
    FreeData(c, s, w);
  }

  // ---- Requests ----

  lemma FreshRequest(c: Config, s: State)
    requires S.Stages(s) && AnswersOk(s.rqsts, s.answers, s.wanted)
    ensures s.next !in s.rqsts && s.next !in s.answers && s.next !in s.calls
  {
  }

  /** While a key is on the device no offload of it is under way; while it is in memory no
      read or removal of it is. */
  lemma KindsUnderWay(s: State, k: Key, id: Id)
    requires RqstsOk(s.index, s.stored, Moving(s.phase), s.rqsts, s.calls, s.wanted) && k in s.index
    requires id in s.rqsts && Unanswered(s.calls, id) && s.rqsts[id].key == k
    ensures s.index[k].location == DISK ==> s.rqsts[id].op != UPDATE
    ensures s.index[k].location == PMEM ==> s.rqsts[id].op == UPDATE
  {
  }

  lemma MayGet(c: Config, s: State, k: Key)
    requires Consistent(c, s) && k in s.stored && k in s.index && s.index[k].location == DISK
    requires NoneOfKind(s, k, REMOVE)
    ensures MayRequest(s, GET, k, 0, 0)
  {
    FreshRequest(c, s);
    forall id | id in s.rqsts && Unanswered(s.calls, id) && s.rqsts[id].key == k ensures s.rqsts[id].op == GET {
      KindsUnderWay(s, k, id);
    }
  }

  lemma MayUpdate(c: Config, s: State, k: Key)
    requires Consistent(c, s) && k in s.stored && k in s.index && s.index[k].location == PMEM
    requires NoneOfKind(s, k, UPDATE)
    ensures s.index[k].ptr.Memory? && MayRequest(s, UPDATE, k, s.index[k].ptr.addr, s.index[k].size)
  {
    FreshRequest(c, s);
    forall id | id in s.rqsts && Unanswered(s.calls, id) && s.rqsts[id].key == k ensures false {
      KindsUnderWay(s, k, id);
    }
    if !s.phase.Idle? { MovingIsUnderWay(s); }
    assert WrapperData(c, s.heap, s.disk, s.index[k], s.stored[k]);
  }

  lemma MayRemove(c: Config, s: State, k: Key)
    requires Consistent(c, s) && k in s.stored && k in s.index && s.index[k].location == DISK && NothingFor(s, k)
    ensures MayRequest(s, REMOVE, k, 0, 0)
  {
    FreshRequest(c, s);
    forall id | id in s.rqsts && Unanswered(s.calls, id) ensures s.rqsts[id].key != k {
      assert s.rqsts[id].op in {GET, UPDATE, REMOVE};
    }
  }

  lemma AskCall(c: Config, s: State, op: Kind, k: Key, value: nat, size: nat)
    requires Consistent(c, s) && MayRequest(s, op, k, value, size) && NoneHolds(s.clients, k)
    ensures Consistent(c, Submit(s, op, k, value, size))
  {
    StagedIsUnanswered(s);
    S.SubmitKeeps(s, op, k, value, size);
    SubmitKeeps(c, s, op, k, value, size);
    SubmitClients(s, op, k, value, size);
    MovingFrame(s, Submit(s, op, k, value, size));
  }

  lemma CallIsDefined(c: Config, s: State, call: Call)
    requires ClientsOk(s) && CallPossible(c, s, call)
    ensures CallDefined(s, call)
  {
    if call.Fill? || call.Cancel? { assert HoldOk(s, s.clients[call.w]); }
  }

  /** Careful clients, whatever they call, keep everything consistent. */
  lemma CallKeeps(c: Config, s: State, call: Call)
    requires Consistent(c, s) && CallPossible(c, s, call) && CallCareful(s, call)
    ensures CallDefined(s, call) && Consistent(c, AfterCall(c, s, call))
  {
    CallIsDefined(c, s, call);
    if Asks(call) {
      AskKeeps(c, s, call);
    } else if Removal(call) {
      RemovalKeeps(c, s, call);
    } else {
      StoringKeeps(c, s, call);
    }
  }

  predicate Removal(call: Call) {
    call.RemoveFromMemory? || call.Unlink? || call.Cancel?
  }

  lemma StoringKeeps(c: Config, s: State, call: Call)
    requires Consistent(c, s) && CallPossible(c, s, call) && CallCareful(s, call) && CallDefined(s, call)
    requires !Asks(call) && !Removal(call)
    ensures Consistent(c, AfterCall(c, s, call))
  {
    match call
    case Reserve(w, k, size, g, junk) => ReserveCall(c, s, w, k, size, g, junk);
    case Fill(w, v) => FillCall(c, s, w, v);
    case PutReserved(w, room) => PutCall(c, s, w, room);
    case PutAgain(w, k, room) => PutAgainCall(c, s, w, k, room);
  }

  lemma RemovalKeeps(c: Config, s: State, call: Call)
    requires Consistent(c, s) && CallPossible(c, s, call) && CallCareful(s, call) && CallDefined(s, call)
    requires Removal(call)
    ensures Consistent(c, AfterCall(c, s, call))
  {
    match call
    case RemoveFromMemory(w, k) => RemoveFromMemoryCall(c, s, w, k);
    case Unlink(w) => UnlinkCall(c, s, w);
    case Cancel(w) => CancelCall(c, s, w);
  }

  lemma AskKeeps(c: Config, s: State, call: Call)
    requires Consistent(c, s) && CallPossible(c, s, call) && CallCareful(s, call) && Asks(call)
    ensures Consistent(c, AfterCall(c, s, call))
  {
    match call
    case AskGet(k) => MayGet(c, s, k); AskCall(c, s, GET, k, 0, 0);
    case AskUpdate(k) => MayUpdate(c, s, k); AskCall(c, s, UPDATE, k, s.index[k].ptr.addr, s.index[k].size);
    case AskRemove(k) => MayRemove(c, s, k); AskCall(c, s, REMOVE, k, 0, 0);
  }

  // ---- The pipeline ----

  /** A step rewrites one request, which may be answered. */
  lemma OneRqst(s: State, s': State, p1: Pipe, id: Id)
    requires S.Stages(s) && MovingOk(s) && ClientsOk(s) && S.OneMore(p1, s.pipe, id) && SameMemory(s, s')
    requires p1.finBatch == s.pipe.finBatch && s'.pipe.finBatch == s.pipe.finBatch && Known(s, id)
    requires id in s'.rqsts && s'.rqsts == s.rqsts[id := s'.rqsts[id]] && s'.rqsts[id].key == s.rqsts[id].key
    requires OnlyAnswers(s, s', id)
    ensures MovingOk(s') && ClientsOk(s')
  {
    MovingElsewhere(s, s', p1, id);
    assert FewerUnderWay(s, s');
    ClientsFrame(s, s');
  }

  lemma PollConsistent(c: Config, s: State)
    requires Consistent(c, s) && s.pipe.pollBatch != []
    ensures Known(s, s.pipe.pollBatch[0]) && Consistent(c, PollOne(c, s))
  {
    PollData(c, s);
    S.PollKeeps(c, s);
    PollClients(c, s);
  }

  lemma PollClients(c: Config, s: State)
    requires S.Stages(s) && MovingOk(s) && ClientsOk(s) && s.pipe.pollBatch != [] && Known(s, s.pipe.pollBatch[0])
    ensures MovingOk(PollOne(c, s)) && ClientsOk(PollOne(c, s))
  {
    S.PopPollTakes(s.pipe);
    OneRqst(s, PollOne(c, s), PopPoll(s.pipe), s.pipe.pollBatch[0]);
  }

  lemma EngineConsistent(c: Config, s: State, lba: nat, pad: Bytes)
    requires Consistent(c, s) && s.pipe.engineBatch != [] && s.pipe.engineBatch[0] in s.rqsts
    requires var r := s.rqsts[s.pipe.engineBatch[0]];
             r.op == UPDATE ==>
               FreeExtent(c, s, c.extent(lba, r.size)) && r.size + |pad| == c.extent(lba, r.size).length
    ensures Known(s, s.pipe.engineBatch[0]) && Submittable(s, s.rqsts[s.pipe.engineBatch[0]])
    ensures Consistent(c, EngineOne(c, s, lba, pad))
  {
    EngineDefined(c, s);
    EngineStepData(c, s, lba, pad);
    S.EngineKeeps(c, s, lba, pad);
    EngineClients(c, s, lba, pad);
  }

  lemma EngineClients(c: Config, s: State, lba: nat, pad: Bytes)
    requires S.Stages(s) && MovingOk(s) && ClientsOk(s) && s.pipe.engineBatch != [] && Known(s, s.pipe.engineBatch[0])
    requires Submittable(s, s.rqsts[s.pipe.engineBatch[0]])
    ensures MovingOk(EngineOne(c, s, lba, pad)) && ClientsOk(EngineOne(c, s, lba, pad))
  {
    S.PopEngineTakes(s.pipe);
    OneRqst(s, EngineOne(c, s, lba, pad), PopEngine(s.pipe), s.pipe.engineBatch[0]);
  }

  lemma CompleteConsistent(c: Config, s: State, i: nat, ok: bool, junk: Bytes)
    requires Consistent(c, s) && i < |s.pipe.device| && s.pipe.device[i] in s.rqsts
    requires TransferFits(c, s.disk, s.rqsts[s.pipe.device[i]], junk)
    ensures Consistent(c, CompleteOne(c, s, i, ok, junk))
  {
    CompleteData(c, s, i, ok, junk);
    S.CompleteKeeps(c, s, i, ok, junk);
    S.PopDeviceTakes(s.pipe, i);
    Leaves(s, PopDevice(s.pipe, i), s.pipe.device[i]);
    OneRqst(s, CompleteOne(c, s, i, ok, junk), PopDevice(s.pipe, i), s.pipe.device[i]);
  }

  lemma DequeueConsistent(c: Config, s: State, p': Pipe)
    requires Consistent(c, s) && Shrinks(s.pipe, p') && S.Stages(s.(pipe := p'))
    requires s.pipe.finBatch == [] || p'.finBatch == s.pipe.finBatch
    ensures Consistent(c, s.(pipe := p'))
  {
    ShrinkKeeps(c, s, p');
    ClientsFrame(s, s.(pipe := p'));
  }

  // ---- FinalizePoller ----

  lemma FinCancelConsistent(c: Config, s: State)
    requires Consistent(c, s) && s.phase.Idle? && ToPublish(s)
    ensures Consistent(c, FinCancelled(s))
  {
    var id := s.pipe.finBatch[0];
    var r := s.rqsts[id];
    FinDefined(c, s);
    S.SameKeeps(s, FinCancelled(s));
    FinCancelData(c, s);
    assert WrapperData(c, s.heap, s.disk, s.index[r.key], s.stored[r.key]);
    CancelClients(s, FinCancelled(s), r.key, r.value);
  }

  lemma FinPointConsistent(c: Config, s: State)
    requires Consistent(c, s) && s.phase.Cancelled? && ToPublish(s)
    ensures Consistent(c, FinPointed(c, s, true))
  {
    var id := s.pipe.finBatch[0];
    FinDefined(c, s);
    S.SameKeeps(s, FinPointed(c, s, true));
    FinPointData(c, s, true);
    FinPointClients(c, s);
  }

  lemma FinPointClients(c: Config, s: State)
    requires S.Stages(s) && MovingOk(s) && ClientsOk(s) && s.phase.Cancelled? && ToPublish(s)
    ensures MovingOk(FinPointed(c, s, true)) && ClientsOk(FinPointed(c, s, true))
  {
    var id := s.pipe.finBatch[0];
    S.PopFinTakes(s.pipe);
    Leaves(s, PopFin(s.pipe), id);
    NobodyHolds(s, id);
    FinClients(s, FinPointed(c, s, true), s.phase.k);
  }

  lemma FinTree(c: Config, s: State)
    requires s.pipe.finBatch != [] && Known(s, s.pipe.finBatch[0])
    requires var r := s.rqsts[s.pipe.finBatch[0]]; r.op == GET && r.result ==> r.size <= |r.buff|
    ensures var s', k := FinOne(c, s), s.rqsts[s.pipe.finBatch[0]].key;
            Elsewhere(s.index, s'.index, s.stored, s'.stored, k) && FewerUnderWay(s, s')
  {
  }

  /** What is finalized is a read, a failure, or changes the tree at a key in nobody's hands. */
  lemma FinOneClients(c: Config, s: State, id: Id, r: Rqst)
    requires MovingOk(s) && ClientsOk(s) && s.pipe.finBatch != [] && id == s.pipe.finBatch[0] && Known(s, id)
    requires r == s.rqsts[id] && Unanswered(s.calls, id) && (r.op == GET && r.result ==> r.size <= |r.buff|)
    requires r.key in s.stored && r.key in s.index && (ToPublish(s) ==> s.phase.Pointed?)
    requires (r.op != UPDATE ==> s.index[r.key].location == DISK)
    ensures ClientsOk(FinOne(c, s))
  {
    FinTree(c, s);
    NobodyHolds(s, id);
    if r.op == UPDATE && !r.result {
      ClientsFrame(s, FinOne(c, s));
    } else {
      FinClients(s, FinOne(c, s), r.key);
    }
  }

  lemma FinConsistent(c: Config, s: State)
    requires Consistent(c, s) && s.pipe.finBatch != [] && (ToPublish(s) ==> s.phase.Pointed?)
    ensures Known(s, s.pipe.finBatch[0])
    ensures var r := s.rqsts[s.pipe.finBatch[0]]; r.op == GET && r.result ==> r.size <= |r.buff|
    ensures Consistent(c, FinOne(c, s))
  {
    var id := s.pipe.finBatch[0];
    FinDefined(c, s);
    FinStepData(c, s);
    S.FinKeeps(c, s);
    S.PopFinTakes(s.pipe);
    Leaves(s, PopFin(s.pipe), id);
    FinOneClients(c, s, id, s.rqsts[id]);
  }
}
