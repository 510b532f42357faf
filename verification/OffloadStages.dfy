/** Every request is at exactly one stage, its callback runs once and it returns to its
    pool once. */
module OffloadStages {
  import opened ValueIndex
  import opened Extents
  import opened OffloadState

  /** How often a request occurs in the pipeline. */
  ghost function Places(p: Pipe, id: Id): nat {
    multiset(p.pollRing)[id] + multiset(p.pollBatch)[id] + multiset(p.engineRing)[id] + multiset(p.engineBatch)[id]
    + multiset(p.device)[id] + multiset(p.finRing)[id] + multiset(p.finBatch)[id] + multiset(p.lost)[id]
  }

  /** The pipeline holds exactly these requests. */
  ghost predicate Holds(p: Pipe, m: multiset<Id>) {
    forall x {:trigger Places(p, x)} :: Places(p, x) == m[x]
  }

  ghost function UnansweredSet(s: State): set<Id> {
    set id | id in s.calls && s.calls[id] == 0
  }

  /** Each request either is at one place in the pipeline and was not answered, or is
      nowhere in it, answered once and returned once. */
  ghost predicate Stages(s: State) {
    && s.calls.Keys == s.rqsts.Keys && s.returned.Keys == s.rqsts.Keys && s.wanted.Keys == s.rqsts.Keys
    && (forall id :: id in s.rqsts ==> id < s.next)
    && (forall id :: id in s.rqsts ==> s.calls[id] <= 1 && s.returned[id] == s.calls[id])
    && Holds(s.pipe, multiset(UnansweredSet(s)))
  }

  // ---- One lemma for every way into and out of a stage ----

  lemma Pushed(q: seq<Id>, id: Id)
    ensures forall x :: multiset(q + [id])[x] == multiset(q)[x] + if x == id then 1 else 0
  {
  }

  lemma Popped(q: seq<Id>)
    requires q != []
    ensures forall x :: multiset(q)[x] == multiset(q[1..])[x] + if x == q[0] then 1 else 0
  {
    assert q == [q[0]] + q[1..];
  }

  lemma Dropped(q: seq<Id>, i: nat)
    requires i < |q|
    ensures forall x :: multiset(q)[x] == multiset(q[..i] + q[i + 1..])[x] + if x == q[i] then 1 else 0
  {
    assert q == q[..i] + [q[i]] + q[i + 1..];
  }

  lemma Split(q: seq<Id>, n: nat)
    requires n <= |q|
    ensures forall x :: multiset(q)[x] == multiset(q[..n])[x] + multiset(q[n..])[x]
  {
    assert q == q[..n] + q[n..];
  }

  /** p' is p with one more occurrence of id. */
  ghost predicate OneMore(p: Pipe, p': Pipe, id: Id) {
    forall x {:trigger Places(p', x)} :: Places(p', x) == Places(p, x) + if x == id then 1 else 0
  }

  lemma PushPollAdds(p: Pipe, id: Id)
    ensures OneMore(p, PushPoll(p, id), id)
  {
    Pushed(p.pollRing, id);
  }

  lemma PushEngineAdds(p: Pipe, id: Id)
    ensures OneMore(p, PushEngine(p, id), id)
  {
    Pushed(p.engineRing, id);
  }

  lemma PushDeviceAdds(p: Pipe, id: Id)
    ensures OneMore(p, PushDevice(p, id), id)
  {
    Pushed(p.device, id);
  }

  lemma PushFinAdds(p: Pipe, id: Id)
    ensures OneMore(p, PushFin(p, id), id)
  {
    Pushed(p.finRing, id);
  }

  lemma PushLostAdds(p: Pipe, id: Id)
    ensures OneMore(p, PushLost(p, id), id)
  {
    Pushed(p.lost, id);
  }

  lemma PopPollTakes(p: Pipe)
    requires p.pollBatch != []
    ensures OneMore(PopPoll(p), p, p.pollBatch[0])
  {
    Popped(p.pollBatch);
  }

  lemma PopEngineTakes(p: Pipe)
    requires p.engineBatch != []
    ensures OneMore(PopEngine(p), p, p.engineBatch[0])
  {
    Popped(p.engineBatch);
  }

  lemma PopFinTakes(p: Pipe)
    requires p.finBatch != []
    ensures OneMore(PopFin(p), p, p.finBatch[0])
  {
    Popped(p.finBatch);
  }

  lemma PopDeviceTakes(p: Pipe, i: nat)
    requires i < |p.device|
    ensures OneMore(PopDevice(p, i), p, p.device[i])
  {
    Dropped(p.device, i);
  }

  lemma AddHolds(p: Pipe, p': Pipe, id: Id, m: multiset<Id>)
    requires Holds(p, m) && OneMore(p, p', id)
    ensures Holds(p', m + multiset{id})
  {
    forall x ensures Places(p', x) == (m + multiset{id})[x] {
      assert Places(p, x) == m[x];
    }
  }

  lemma TakeHolds(p: Pipe, p': Pipe, id: Id, m: multiset<Id>)
    requires Holds(p, m) && OneMore(p', p, id)
    ensures id in m && Holds(p', m - multiset{id})
  {
    assert Places(p, id) > 0;
    forall x ensures Places(p', x) == (m - multiset{id})[x] {
      assert Places(p, x) == m[x];
    }
  }

  lemma PollDequeueHolds(p: Pipe, n: nat, m: multiset<Id>)
    requires Holds(p, m) && p.pollBatch == [] && n <= |p.pollRing|
    ensures Holds(p.(pollBatch := p.pollRing[..n], pollRing := p.pollRing[n..]), m)
  {
    Split(p.pollRing, n);
    forall x ensures Places(p.(pollBatch := p.pollRing[..n], pollRing := p.pollRing[n..]), x) == m[x] {
      assert Places(p, x) == m[x];
    }
  }

  lemma EngineDequeueHolds(p: Pipe, n: nat, m: multiset<Id>)
    requires Holds(p, m) && p.engineBatch == [] && n <= |p.engineRing|
    ensures Holds(p.(engineBatch := p.engineRing[..n], engineRing := p.engineRing[n..]), m)
  {
    Split(p.engineRing, n);
    forall x ensures Places(p.(engineBatch := p.engineRing[..n], engineRing := p.engineRing[n..]), x) == m[x] {
      assert Places(p, x) == m[x];
    }
  }

  lemma FinDequeueHolds(p: Pipe, n: nat, m: multiset<Id>)
    requires Holds(p, m) && p.finBatch == [] && n <= |p.finRing|
    ensures Holds(p.(finBatch := p.finRing[..n], finRing := p.finRing[n..]), m)
  {
    Split(p.finRing, n);
    forall x ensures Places(p.(finBatch := p.finRing[..n], finRing := p.finRing[n..]), x) == m[x] {
      assert Places(p, x) == m[x];
    }
  }

  // ---- Requests made, moved and finished ----

  lemma SubmitKeeps(s: State, op: Kind, k: Key, value: nat, size: nat)
    requires Stages(s) && k in s.stored
    ensures Stages(Submit(s, op, k, value, size))
  {
    var id, s' := s.next, Submit(s, op, k, value, size);
    assert s'.rqsts.Keys == s.rqsts.Keys + {id};
    PushPollAdds(s.pipe, id);
    AddHolds(s.pipe, s'.pipe, id, multiset(UnansweredSet(s)));
    assert UnansweredSet(s') == UnansweredSet(s) + {id};
    assert multiset(UnansweredSet(s')) == multiset(UnansweredSet(s)) + multiset{id};
  }

  /** s1 is s after request id left its place; nothing else that counts here. */
  ghost predicate Taken(s: State, s1: State, id: Id) {
    && Stages(s) && OneMore(s1.pipe, s.pipe, id)
    && s1.rqsts.Keys == s.rqsts.Keys && s1.next == s.next && s1.wanted == s.wanted && s1.calls == s.calls
    && s1.returned == s.returned
  }

  lemma FinishKeeps(s: State, s1: State, id: Id, code: Code, bytes: Bytes)
    requires Taken(s, s1, id)
    ensures Known(s1, id) && Stages(Finish(s1, id, code, bytes))
  {
    var m := multiset(UnansweredSet(s));
    TakeHolds(s.pipe, s1.pipe, id, m);
    assert id in UnansweredSet(s);
    var s' := Finish(s1, id, code, bytes);
    assert s'.calls.Keys == s.calls.Keys && s'.returned.Keys == s.returned.Keys;
    assert UnansweredSet(s') == UnansweredSet(s) - {id};
    assert multiset(UnansweredSet(s')) == m - multiset{id};
  }

  lemma MoveKeeps(s: State, s1: State, id: Id, p': Pipe)
    requires Taken(s, s1, id) && OneMore(s1.pipe, p', id)
    ensures Stages(s1.(pipe := p'))
  {
    var m := multiset(UnansweredSet(s));
    TakeHolds(s.pipe, s1.pipe, id, m);
    AddHolds(s1.pipe, p', id, m - multiset{id});
    assert m - multiset{id} + multiset{id} == m;
    assert UnansweredSet(s1.(pipe := p')) == UnansweredSet(s);
  }

  lemma ToEngineKeeps(c: Config, s: State, s1: State, id: Id)
    requires Taken(s, s1, id)
    ensures Known(s1, id) && Stages(ToEngine(c, s1, id))
  {
    PushEngineAdds(s1.pipe, id);
    MoveKeeps(s, s1, id, PushEngine(s1.pipe, id));
    FinishKeeps(s, s1, id, UNKNOWN_ERROR, []);
  }

  lemma InPipeIsKnown(s: State, id: Id)
    requires Stages(s) && Places(s.pipe, id) > 0
    ensures Known(s, id) && Unanswered(s.calls, id)
  {
    assert multiset(UnansweredSet(s))[id] > 0;
  }

  lemma PollKeeps(c: Config, s: State)
    requires Stages(s) && s.pipe.pollBatch != []
    ensures Known(s, s.pipe.pollBatch[0]) && Stages(PollOne(c, s))
  {
    PopPollTakes(s.pipe);
    var id := s.pipe.pollBatch[0];
    InPipeIsKnown(s, id);
    var s1 := PollEffect(s);
    assert s1.rqsts.Keys == s.rqsts.Keys;
    ToEngineKeeps(c, s, s1, id);
    if PollVerdict(s).Some? { FinishKeeps(s, s1, id, PollVerdict(s).value, []); }
  }

  lemma EngineKeeps(c: Config, s: State, lba: nat, pad: Bytes)
    requires Stages(s) && s.pipe.engineBatch != [] && Known(s, s.pipe.engineBatch[0])
    requires Submittable(s, s.rqsts[s.pipe.engineBatch[0]])
    ensures Stages(EngineOne(c, s, lba, pad))
  {
    PopEngineTakes(s.pipe);
    var id := s.pipe.engineBatch[0];
    var s1 := EngineEffect(s, lba, pad);
    assert s1.rqsts.Keys == s.rqsts.Keys;
    PushDeviceAdds(s1.pipe, id);
    PushFinAdds(s1.pipe, id);
    MoveKeeps(s, s1, id, PushDevice(s1.pipe, id));
    MoveKeeps(s, s1, id, PushFin(s1.pipe, id));
    FinishKeeps(s, s1, id, UNKNOWN_ERROR, []);
  }

  lemma CompleteKeeps(c: Config, s: State, i: nat, ok: bool, junk: Bytes)
    requires Stages(s) && i < |s.pipe.device| && s.pipe.device[i] in s.rqsts
    requires TransferFits(c, s.disk, s.rqsts[s.pipe.device[i]], junk)
    ensures Stages(CompleteOne(c, s, i, ok, junk))
  {
    PopDeviceTakes(s.pipe, i);
    var id, s1 := s.pipe.device[i], CompleteEffect(c, s, i, ok, junk);
    assert s1.rqsts.Keys == s.rqsts.Keys;
    PushFinAdds(s1.pipe, id);
    PushLostAdds(s1.pipe, id);
    MoveKeeps(s, s1, id, PushFin(s1.pipe, id));
    MoveKeeps(s, s1, id, PushLost(s1.pipe, id));
  }

  lemma FinFrame(c: Config, s: State)
    requires s.pipe.finBatch != [] && s.pipe.finBatch[0] in s.rqsts
    ensures var s1 := FinEffect(c, s);
            && s1.pipe == PopFin(s.pipe) && s1.rqsts == s.rqsts && s1.next == s.next && s1.wanted == s.wanted
            && s1.calls == s.calls && s1.returned == s.returned
  {
  }

  lemma FinKeeps(c: Config, s: State)
    requires Stages(s) && s.pipe.finBatch != [] && Known(s, s.pipe.finBatch[0])
    requires var r := s.rqsts[s.pipe.finBatch[0]]; r.op == GET && r.result ==> r.size <= |r.buff|
    ensures Stages(FinOne(c, s))
  {
    PopFinTakes(s.pipe);
    FinFrame(c, s);
    FinishKeeps(s, FinEffect(c, s), s.pipe.finBatch[0], FinAnswer(c, s).0, FinAnswer(c, s).1);
  }

  /** A step that leaves requests and their places alone. */
  lemma SameKeeps(s: State, s': State)
    requires Stages(s) && SameRequests(s, s')
    ensures Stages(s')
  {
    assert UnansweredSet(s') == UnansweredSet(s);
  }

  lemma CallStages(c: Config, s: State, call: Call)
    requires Stages(s) && CallPossible(c, s, call) && CallDefined(s, call)
    ensures Stages(AfterCall(c, s, call))
  {
    if !Asks(call) {
      CallFrame(c, s, call);
      SameKeeps(s, AfterCall(c, s, call));
    } else {
      match call
      case AskGet(k) => SubmitKeeps(s, GET, k, 0, 0);
      case AskUpdate(k) => SubmitKeeps(s, UPDATE, k, s.index[k].ptr.addr, s.index[k].size);
      case AskRemove(k) => SubmitKeeps(s, REMOVE, k, 0, 0);
    }
  }

  lemma DequeueStages(s: State, n: nat)
    requires Stages(s)
    ensures s.pipe.pollBatch == [] && n <= |s.pipe.pollRing| ==>
              Stages(s.(pipe := s.pipe.(pollBatch := s.pipe.pollRing[..n], pollRing := s.pipe.pollRing[n..])))
    ensures s.pipe.engineBatch == [] && n <= |s.pipe.engineRing| ==>
              Stages(s.(pipe := s.pipe.(engineBatch := s.pipe.engineRing[..n], engineRing := s.pipe.engineRing[n..])))
    ensures s.pipe.finBatch == [] && n <= |s.pipe.finRing| ==>
              Stages(s.(pipe := s.pipe.(finBatch := s.pipe.finRing[..n], finRing := s.pipe.finRing[n..])))
  {
    var m := multiset(UnansweredSet(s));
    if s.pipe.pollBatch == [] && n <= |s.pipe.pollRing| {
      PollDequeueHolds(s.pipe, n, m);
      RepipedKeeps(s, s.pipe.(pollBatch := s.pipe.pollRing[..n], pollRing := s.pipe.pollRing[n..]));
    }
    if s.pipe.engineBatch == [] && n <= |s.pipe.engineRing| {
      EngineDequeueHolds(s.pipe, n, m);
      RepipedKeeps(s, s.pipe.(engineBatch := s.pipe.engineRing[..n], engineRing := s.pipe.engineRing[n..]));
    }
    if s.pipe.finBatch == [] && n <= |s.pipe.finRing| {
      FinDequeueHolds(s.pipe, n, m);
      RepipedKeeps(s, s.pipe.(finBatch := s.pipe.finRing[..n], finRing := s.pipe.finRing[n..]));
    }
  }

  lemma RepipedKeeps(s: State, p': Pipe)
    requires Stages(s) && Holds(p', multiset(UnansweredSet(s)))
    ensures Stages(s.(pipe := p'))
  {
    assert UnansweredSet(s.(pipe := p')) == UnansweredSet(s);
  }

  lemma StagesKept(c: Config, s: State, step: Step)
    requires Stages(s) && Possible(c, s, step) && Defined(c, s, step)
    ensures Stages(Next(c, s, step))
  {
    match step
    case Client(call) => CallStages(c, s, call);
    case PollDequeue(n) => DequeueStages(s, n);
    case PollProcess => PollKeeps(c, s);
    case EngineDequeue(n) => DequeueStages(s, n);
    case EngineProcess(lba, pad) => EngineKeeps(c, s, lba, pad);
    case Complete(i, ok, junk) => CompleteKeeps(c, s, i, ok, junk);
    case FinDequeue(n) => DequeueStages(s, n);
    case FinCancel => SameKeeps(s, FinCancelled(s));
    case FinPoint(granted) => SameKeeps(s, FinPointed(c, s, granted));
    case FinProcess => FinKeeps(c, s);
  }
}
