/** The device's buffers: `ioBufsInUse` counts exactly the submitted writes and the reads
    that were not finalized, and back-pressure keeps it below the limit. */
module OffloadAccounting {
  import opened ValueIndex
  import opened Extents
  import opened OffloadState
  import opened OffloadStages

  ghost predicate IsGet(rqsts: map<Id, Rqst>, id: Id) {
    id in rqsts && rqsts[id].op == GET
  }

  ghost function Gets(rqsts: map<Id, Rqst>, q: seq<Id>): nat {
    if q == [] then 0 else Gets(rqsts, q[..|q| - 1]) + if IsGet(rqsts, q[|q| - 1]) then 1 else 0
  }

  lemma GetsPush(rqsts: map<Id, Rqst>, q: seq<Id>, id: Id)
    ensures Gets(rqsts, q + [id]) == Gets(rqsts, q) + if IsGet(rqsts, id) then 1 else 0
  {
    assert (q + [id])[..|q|] == q;
  }

  lemma {:induction false} GetsConcat(rqsts: map<Id, Rqst>, a: seq<Id>, b: seq<Id>)
    ensures Gets(rqsts, a + b) == Gets(rqsts, a) + Gets(rqsts, b)
  {
    if b == [] {
      assert a + b == a;
    } else {
      assert (a + b)[..|a + b| - 1] == a + b[..|b| - 1];
      GetsConcat(rqsts, a, b[..|b| - 1]);
    }
  }

  lemma GetsPop(rqsts: map<Id, Rqst>, q: seq<Id>)
    requires q != []
    ensures Gets(rqsts, q) == Gets(rqsts, q[1..]) + if IsGet(rqsts, q[0]) then 1 else 0
  {
    assert q == [q[0]] + q[1..];
    GetsConcat(rqsts, [q[0]], q[1..]);
    assert [q[0]][..0] == [];
    assert Gets(rqsts, [q[0]]) == if IsGet(rqsts, q[0]) then 1 else 0;
  }

  /** Requests keep their kind, and new ones are not yet anywhere in the queue. */
  lemma {:induction false} GetsFrame(r: map<Id, Rqst>, r': map<Id, Rqst>, q: seq<Id>)
    requires forall id :: id in q ==> (IsGet(r, id) <==> IsGet(r', id))
    ensures Gets(r, q) == Gets(r', q)
  {
    if q != [] { GetsFrame(r, r', q[..|q| - 1]); }
  }

  /** Completed reads that still hold their buffer. */
  ghost function ReadsDone(rqsts: map<Id, Rqst>, p: Pipe): nat {
    Gets(rqsts, p.finRing) + Gets(rqsts, p.finBatch) + Gets(rqsts, p.lost)
  }

  /** n buffers are in use: those of submitted transfers and of completed reads. */
  ghost predicate InUse(s: State, n: int) {
    && n == |s.pipe.device| + ReadsDone(s.rqsts, s.pipe)
    && forall i :: 0 <= i < |s.pipe.device| ==> s.pipe.device[i] in s.rqsts && s.rqsts[s.pipe.device[i]].op != REMOVE
  }

  /** The counter is exact, and leaves room for what the engine has dequeued. */
  ghost predicate Account(c: Config, s: State) {
    InUse(s, s.ioBufsInUse) && s.ioBufsInUse + |s.pipe.engineBatch| <= c.maxIoBufs
  }

  /** By how much a step changes the counter. */
  function Delta(s: State, step: Step): (d: int) {
    match step
    case EngineProcess(_, _) =>
      if s.pipe.engineBatch != [] && s.pipe.engineBatch[0] in s.rqsts && s.rqsts[s.pipe.engineBatch[0]].op != REMOVE
      then 1 else 0
    case Complete(i, _, _) =>
      if i < |s.pipe.device| && s.pipe.device[i] in s.rqsts && s.rqsts[s.pipe.device[i]].op == UPDATE then -1 else 0
    case FinProcess =>
      if s.pipe.finBatch != [] && s.pipe.finBatch[0] in s.rqsts && s.rqsts[s.pipe.finBatch[0]].op == GET then -1 else 0
    case _ => 0
  }

  ghost predicate SameKinds(r: map<Id, Rqst>, r': map<Id, Rqst>) {
    forall id :: id in r ==> id in r' && r'[id].op == r[id].op
  }

  ghost predicate FinKnown(s: State) {
    forall id :: id in s.pipe.finRing || id in s.pipe.finBatch || id in s.pipe.lost ==> id in s.rqsts
  }

  lemma StagesFinKnown(s: State)
    requires Stages(s)
    ensures FinKnown(s)
  {
    forall id | id in s.pipe.finRing || id in s.pipe.finBatch || id in s.pipe.lost ensures id in s.rqsts {
      assert Places(s.pipe, id) > 0;
      InPipeIsKnown(s, id);
    }
  }

  lemma ReadsDoneFrame(s: State, r': map<Id, Rqst>)
    requires FinKnown(s) && SameKinds(s.rqsts, r')
    ensures Gets(r', s.pipe.finRing) == Gets(s.rqsts, s.pipe.finRing)
    ensures Gets(r', s.pipe.finBatch) == Gets(s.rqsts, s.pipe.finBatch)
    ensures Gets(r', s.pipe.lost) == Gets(s.rqsts, s.pipe.lost)
  {
    GetsFrame(s.rqsts, r', s.pipe.finRing);
    GetsFrame(s.rqsts, r', s.pipe.finBatch);
    GetsFrame(s.rqsts, r', s.pipe.lost);
  }

  // ---- The four ways a step touches the account ----

  lemma InUseFrame(s: State, s': State, n: int)
    requires FinKnown(s) && InUse(s, n) && SameKinds(s.rqsts, s'.rqsts)
    requires s'.pipe.(pollRing := s.pipe.pollRing, pollBatch := s.pipe.pollBatch,
                      engineRing := s.pipe.engineRing, engineBatch := s.pipe.engineBatch) == s.pipe
    ensures InUse(s', n)
  {
    ReadsDoneFrame(s, s'.rqsts);
  }

  lemma InUseSubmitted(s: State, s': State, id: Id, n: int)
    requires FinKnown(s) && InUse(s, n) && SameKinds(s.rqsts, s'.rqsts) && s.pipe.engineBatch != []
    requires id in s'.rqsts && s'.rqsts[id].op != REMOVE && s'.pipe == PushDevice(PopEngine(s.pipe), id)
    ensures InUse(s', n + 1)
  {
    ReadsDoneFrame(s, s'.rqsts);
  }

  lemma InUseRemoved(s: State, s': State, id: Id, n: int)
    requires FinKnown(s) && InUse(s, n) && SameKinds(s.rqsts, s'.rqsts) && s.pipe.engineBatch != []
    requires id in s'.rqsts && s'.rqsts[id].op == REMOVE && s'.pipe == PushFin(PopEngine(s.pipe), id)
    ensures InUse(s', n)
  {
    ReadsDoneFrame(s, s'.rqsts);
    GetsPush(s'.rqsts, s.pipe.finRing, id);
  }

  lemma InUseCompleted(s: State, s': State, i: nat, n: int)
    requires FinKnown(s) && InUse(s, n) && SameKinds(s.rqsts, s'.rqsts) && i < |s.pipe.device|
    requires var id := s.pipe.device[i];
             s'.pipe == PushFin(PopDevice(s.pipe, i), id) || s'.pipe == PushLost(PopDevice(s.pipe, i), id)
    ensures InUse(s', n - if s.rqsts[s.pipe.device[i]].op == GET then 0 else 1)
  {
    var id := s.pipe.device[i];
    ReadsDoneFrame(s, s'.rqsts);
    GetsPush(s'.rqsts, s.pipe.finRing, id);
    GetsPush(s'.rqsts, s.pipe.lost, id);
    var d := s'.pipe.device;
    forall j | 0 <= j < |d| ensures d[j] in s'.rqsts && s'.rqsts[d[j]].op != REMOVE {
      assert d[j] == s.pipe.device[if j < i then j else j + 1];
    }
  }

  // ---- Every step ----

  lemma EngineInUse(c: Config, s: State, lba: nat, pad: Bytes, n: int)
    requires FinKnown(s) && InUse(s, n) && s.pipe.engineBatch != [] && Known(s, s.pipe.engineBatch[0])
    requires Submittable(s, s.rqsts[s.pipe.engineBatch[0]])
    ensures InUse(EngineOne(c, s, lba, pad), n + Delta(s, EngineProcess(lba, pad)))
  {
    var id, s' := s.pipe.engineBatch[0], EngineOne(c, s, lba, pad);
    if s.rqsts[id].op != REMOVE {
      InUseSubmitted(s, s', id, n);
    } else if |s.pipe.finRing| < c.ring {
      InUseRemoved(s, s', id, n);
    } else {
      InUseFrame(s, s', n);
    }
  }

  lemma CompleteInUse(c: Config, s: State, i: nat, ok: bool, junk: Bytes, n: int)
    requires FinKnown(s) && InUse(s, n) && i < |s.pipe.device| && s.pipe.device[i] in s.rqsts
    requires TransferFits(c, s.disk, s.rqsts[s.pipe.device[i]], junk)
    ensures InUse(CompleteOne(c, s, i, ok, junk), n + Delta(s, Complete(i, ok, junk)))
  {
    CompleteFrame(c, s, i, ok, junk);
    InUseCompleted(s, CompleteOne(c, s, i, ok, junk), i, n);
  }

  lemma CompleteFrame(c: Config, s: State, i: nat, ok: bool, junk: Bytes)
    requires i < |s.pipe.device| && s.pipe.device[i] in s.rqsts
    requires TransferFits(c, s.disk, s.rqsts[s.pipe.device[i]], junk)
    ensures var s', id := CompleteOne(c, s, i, ok, junk), s.pipe.device[i];
            && SameKinds(s.rqsts, s'.rqsts)
            && (s'.pipe == PushFin(PopDevice(s.pipe, i), id) || s'.pipe == PushLost(PopDevice(s.pipe, i), id))
  {
    assert CompleteEffect(c, s, i, ok, junk).pipe == PopDevice(s.pipe, i);
  }

  lemma FinInUse(c: Config, s: State, n: int)
    requires InUse(s, n) && s.pipe.finBatch != [] && Known(s, s.pipe.finBatch[0])
    requires var r := s.rqsts[s.pipe.finBatch[0]]; r.op == GET && r.result ==> r.size <= |r.buff|
    ensures InUse(FinOne(c, s), n + Delta(s, FinProcess))
  {
    FinFrame(c, s);
    GetsPop(s.rqsts, s.pipe.finBatch);
  }

  lemma PollInUse(c: Config, s: State, n: int)
    requires FinKnown(s) && InUse(s, n) && s.pipe.pollBatch != [] && Known(s, s.pipe.pollBatch[0])
    ensures InUse(PollOne(c, s), n)
  {
    assert SameKinds(s.rqsts, PollEffect(s).rqsts);
    InUseFrame(s, PollOne(c, s), n);
  }

  lemma SubmitInUse(s: State, op: Kind, k: Key, value: nat, size: nat, n: int)
    requires FinKnown(s) && InUse(s, n) && k in s.stored && s.next !in s.rqsts
    ensures InUse(Submit(s, op, k, value, size), n)
  {
    InUseFrame(s, Submit(s, op, k, value, size), n);
  }

  lemma FinDequeueInUse(s: State, m: nat, n: int)
    requires InUse(s, n) && s.pipe.finBatch == [] && m <= |s.pipe.finRing|
    ensures InUse(s.(pipe := s.pipe.(finBatch := s.pipe.finRing[..m], finRing := s.pipe.finRing[m..])), n)
  {
    assert s.pipe.finRing == s.pipe.finRing[..m] + s.pipe.finRing[m..];
    GetsConcat(s.rqsts, s.pipe.finRing[..m], s.pipe.finRing[m..]);
  }

  lemma CallInUse(c: Config, s: State, call: Call, n: int)
    requires FinKnown(s) && InUse(s, n) && s.next !in s.rqsts && CallPossible(c, s, call) && CallDefined(s, call)
    ensures InUse(AfterCall(c, s, call), n)
  {
    if !Asks(call) {
      CallFrame(c, s, call);
    } else {
      match call
      case AskGet(k) => SubmitInUse(s, GET, k, 0, 0, n);
      case AskUpdate(k) => SubmitInUse(s, UPDATE, k, s.index[k].ptr.addr, s.index[k].size, n);
      case AskRemove(k) => SubmitInUse(s, REMOVE, k, 0, 0, n);
    }
  }

  lemma ProcessInUse(c: Config, s: State, step: Step, n: int)
    requires FinKnown(s) && InUse(s, n) && Possible(c, s, step) && Defined(c, s, step)
    requires step.PollProcess? || step.EngineProcess? || step.Complete? || step.FinProcess?
    ensures InUse(Next(c, s, step), n + Delta(s, step))
  {
    match step
    case PollProcess => PollInUse(c, s, n);
    case EngineProcess(lba, pad) => EngineInUse(c, s, lba, pad, n);
    case Complete(i, ok, junk) => CompleteInUse(c, s, i, ok, junk, n);
    case FinProcess => FinInUse(c, s, n);
  }

  lemma OtherInUse(c: Config, s: State, step: Step, n: int)
    requires FinKnown(s) && InUse(s, n) && Possible(c, s, step) && Defined(c, s, step)
    requires step.PollDequeue? || step.EngineDequeue? || step.FinDequeue? || step.FinCancel? || step.FinPoint?
    ensures InUse(Next(c, s, step), n)
  {
    if step.FinDequeue? { FinDequeueInUse(s, step.n, n); } else { InUseFrame(s, Next(c, s, step), n); }
  }

  /** What is in use changes with every step as the counter should. */
  lemma InUseKept(c: Config, s: State, step: Step, n: int)
    requires Stages(s) && InUse(s, n) && Possible(c, s, step) && Defined(c, s, step)
    ensures InUse(Next(c, s, step), n + Delta(s, step))
  {
    StagesFinKnown(s);
    if step.Client? {
      CallInUse(c, s, step.call, n);
    } else if step.PollProcess? || step.EngineProcess? || step.Complete? || step.FinProcess? {
      ProcessInUse(c, s, step, n);
    } else {
      OtherInUse(c, s, step, n);
    }
  }

  // ---- The counter itself ----

  lemma EngineCounter(c: Config, s: State, lba: nat, pad: Bytes)
    requires s.pipe.engineBatch != [] && Known(s, s.pipe.engineBatch[0])
    requires Submittable(s, s.rqsts[s.pipe.engineBatch[0]])
    ensures var s' := EngineOne(c, s, lba, pad);
            && s'.ioBufsInUse == s.ioBufsInUse + Delta(s, EngineProcess(lba, pad))
            && |s'.pipe.engineBatch| == |s.pipe.engineBatch| - 1
  {
  }

  lemma CompleteCounter(c: Config, s: State, i: nat, ok: bool, junk: Bytes)
    requires i < |s.pipe.device| && s.pipe.device[i] in s.rqsts
    requires TransferFits(c, s.disk, s.rqsts[s.pipe.device[i]], junk)
    ensures var s' := CompleteOne(c, s, i, ok, junk);
            && s'.ioBufsInUse == s.ioBufsInUse + Delta(s, Complete(i, ok, junk))
            && s'.pipe.engineBatch == s.pipe.engineBatch
  {
  }

  lemma FinCounter(c: Config, s: State)
    requires s.pipe.finBatch != [] && Known(s, s.pipe.finBatch[0])
    requires var r := s.rqsts[s.pipe.finBatch[0]]; r.op == GET && r.result ==> r.size <= |r.buff|
    ensures FinOne(c, s).ioBufsInUse == s.ioBufsInUse + Delta(s, FinProcess)
    ensures FinOne(c, s).pipe.engineBatch == s.pipe.engineBatch
  {
  }

  lemma PollCounter(c: Config, s: State)
    requires s.pipe.pollBatch != [] && Known(s, s.pipe.pollBatch[0])
    ensures PollOne(c, s).ioBufsInUse == s.ioBufsInUse && PollOne(c, s).pipe.engineBatch == s.pipe.engineBatch
  {
    var s1 := PollEffect(s);
    assert s1.pipe == PopPoll(s.pipe) && s1.ioBufsInUse == s.ioBufsInUse;
    ToEngineCounter(c, s1, s.pipe.pollBatch[0]);
  }

  lemma ToEngineCounter(c: Config, s: State, id: Id)
    requires id in s.calls && id in s.returned
    ensures ToEngine(c, s, id).ioBufsInUse == s.ioBufsInUse && ToEngine(c, s, id).pipe.engineBatch == s.pipe.engineBatch
  {
  }

  lemma CallCounter(c: Config, s: State, call: Call)
    requires CallPossible(c, s, call) && CallDefined(s, call)
    ensures AfterCall(c, s, call).ioBufsInUse == s.ioBufsInUse
    ensures AfterCall(c, s, call).pipe.engineBatch == s.pipe.engineBatch
  {
    if !Asks(call) { CallFrame(c, s, call); }
  }

  /** The counter moves as what is in use does; only the engine's batch grows or shrinks. */
  lemma CounterStep(c: Config, s: State, step: Step)
    requires Possible(c, s, step) && Defined(c, s, step)
    ensures Next(c, s, step).ioBufsInUse == s.ioBufsInUse + Delta(s, step)
    ensures |Next(c, s, step).pipe.engineBatch| == BatchAfter(s, step)
  {
    if step.Client? {
      CallCounter(c, s, step.call);
    } else if step.PollProcess? || step.EngineProcess? || step.Complete? || step.FinProcess? {
      ProcessCounter(c, s, step);
    }
  }

  /** How much the engine has taken on after the step. */
  function BatchAfter(s: State, step: Step): (n: int) {
    match step
    case EngineProcess(_, _) => |s.pipe.engineBatch| - 1
    case EngineDequeue(n) => n
    case _ => |s.pipe.engineBatch|
  }

  lemma ProcessCounter(c: Config, s: State, step: Step)
    requires Possible(c, s, step) && Defined(c, s, step)
    requires step.PollProcess? || step.EngineProcess? || step.Complete? || step.FinProcess?
    ensures Next(c, s, step).ioBufsInUse == s.ioBufsInUse + Delta(s, step)
    ensures |Next(c, s, step).pipe.engineBatch| == BatchAfter(s, step)
  {
    match step
    case PollProcess => PollCounter(c, s);
    case EngineProcess(lba, pad) => EngineCounter(c, s, lba, pad);
    case Complete(i, ok, junk) => CompleteCounter(c, s, i, ok, junk);
    case FinProcess => FinCounter(c, s);
  }

  /** Back-pressure: what the engine dequeues fits under the limit. */
  lemma CounterMoves(c: Config, s: State, step: Step)
    requires Possible(c, s, step) && Defined(c, s, step) && s.ioBufsInUse + |s.pipe.engineBatch| <= c.maxIoBufs
    ensures Next(c, s, step).ioBufsInUse == s.ioBufsInUse + Delta(s, step)
    ensures Next(c, s, step).ioBufsInUse + |Next(c, s, step).pipe.engineBatch| <= c.maxIoBufs
  {
    CounterStep(c, s, step);
  }

  lemma AccountKept(c: Config, s: State, step: Step)
    requires Stages(s) && Account(c, s) && Possible(c, s, step) && Defined(c, s, step)
    ensures Account(c, Next(c, s, step))
  {
    InUseKept(c, s, step, s.ioBufsInUse);
    CounterMoves(c, s, step);
  }
}
