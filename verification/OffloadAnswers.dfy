/** What clients are told (lib/offload/FinalizePoller.cpp, lib/offload/OffloadPoller.cpp,
    lib/spdk/SpdkBdev.cpp): which steps answer a request, with what, and that a request whose
    transfer succeeds has done its work by then. */
module OffloadAnswers {
  import opened Basics
  import opened ValueIndex
  import opened Extents
  import opened OffloadState
  import opened OffloadData
  import opened OffloadSteps
  import opened OffloadClients
  import opened OffloadTheorems
  import O = OffloadState
  import S = OffloadStages
  import OffloadRuns

  // ---- Which steps answer ----

  /** The step finds the ring full that the request was to go to. */
  predicate FindsRingFull(c: Config, s: State, step: Step, id: Id) {
    || (step.PollProcess? && s.pipe.pollBatch != [] && s.pipe.pollBatch[0] == id && |s.pipe.engineRing| >= c.ring)
    || (step.EngineProcess? && s.pipe.engineBatch != [] && s.pipe.engineBatch[0] == id
        && id in s.rqsts && s.rqsts[id].op == REMOVE && |s.pipe.finRing| >= c.ring)
  }

  predicate Finalizes(s: State, step: Step, id: Id) {
    step.FinProcess? && s.pipe.finBatch != [] && s.pipe.finBatch[0] == id
  }

  /** What a request is told at last: how its transfer went, and what was stored under the key
      when a read was made. */
  function Told(r: Rqst, wanted: Bytes): (a: (Code, Bytes)) {
    if !r.result then (UNKNOWN_ERROR, []) else if r.op == GET then (OK, wanted) else (OK, [])
  }

  predicate Answered(s: State, id: Id, a: (Code, Bytes)) {
    id in s.calls && s.calls[id] == 1 && id in s.answers && s.answers[id] == a
  }

  /** After the step the request is answered as it should be, or still unanswered. */
  predicate RightlyTold(c: Config, s: State, step: Step, t: State, id: Id) {
    if FindsRingFull(c, s, step, id) then Answered(t, id, (UNKNOWN_ERROR, []))
    else if Finalizes(s, step, id)
    then id in s.rqsts && id in s.wanted && Answered(t, id, Told(s.rqsts[id], s.wanted[id]))
    else Unanswered(t.calls, id)
  }

  lemma PollAnswers(c: Config, s: State, id: Id)
    requires Consistent(c, s) && s.pipe.pollBatch != [] && Unanswered(s.calls, id)
    ensures Known(s, s.pipe.pollBatch[0])
    ensures RightlyTold(c, s, PollProcess, PollOne(c, s), id)
  {
    PollFacts(c, s);
    PollTells(c, s, id);
  }

  lemma PollTells(c: Config, s: State, id: Id)
    requires s.pipe.pollBatch != [] && Known(s, s.pipe.pollBatch[0]) && PollVerdict(s) == None
    requires Unanswered(s.calls, id)
    ensures RightlyTold(c, s, PollProcess, PollOne(c, s), id)
  {
    RoutedOn(c, s);
  }

  /** The poller hands the head of its batch on, or tells it that the engine's ring is full. */
  lemma RoutedOn(c: Config, s: State)
    requires s.pipe.pollBatch != [] && Known(s, s.pipe.pollBatch[0]) && PollVerdict(s) == None
    ensures var id, t := s.pipe.pollBatch[0], PollOne(c, s);
            if |s.pipe.engineRing| < c.ring then t.calls == s.calls
            else t.calls == s.calls[id := s.calls[id] + 1] && id in t.answers && t.answers[id] == (UNKNOWN_ERROR, [])
  {
  }

  lemma EngineAnswers(c: Config, s: State, lba: nat, pad: Bytes, id: Id)
    requires s.pipe.engineBatch != [] && Known(s, s.pipe.engineBatch[0]) && Unanswered(s.calls, id)
    requires Submittable(s, s.rqsts[s.pipe.engineBatch[0]])
    ensures RightlyTold(c, s, EngineProcess(lba, pad), EngineOne(c, s, lba, pad), id)
  {
    SubmittedOn(c, s, lba, pad);
  }

  /** The engine hands the head of its batch on, or tells a removal that the finalizer's ring
      is full. */
  lemma SubmittedOn(c: Config, s: State, lba: nat, pad: Bytes)
    requires s.pipe.engineBatch != [] && Known(s, s.pipe.engineBatch[0])
    requires Submittable(s, s.rqsts[s.pipe.engineBatch[0]])
    ensures var id, t := s.pipe.engineBatch[0], EngineOne(c, s, lba, pad);
            if s.rqsts[id].op != REMOVE || |s.pipe.finRing| < c.ring then t.calls == s.calls
            else t.calls == s.calls[id := s.calls[id] + 1] && id in t.answers && t.answers[id] == (UNKNOWN_ERROR, [])
  {
  }

  lemma FinAnswers(c: Config, s: State, id: Id)
    requires Consistent(c, s) && s.pipe.finBatch != [] && Unanswered(s.calls, id)
    ensures Known(s, s.pipe.finBatch[0])
    ensures var r := s.rqsts[s.pipe.finBatch[0]]; r.op == GET && r.result ==> r.size <= |r.buff|
    ensures RightlyTold(c, s, FinProcess, FinOne(c, s), id)
  {
    FinDefined(c, s);
    ToldIs(c, s);
  }

  lemma ToldIs(c: Config, s: State)
    requires s.pipe.finBatch != [] && Known(s, s.pipe.finBatch[0])
    requires var id := s.pipe.finBatch[0];
             && RqstData(s.index, s.stored, Moving(s.phase), s.wanted, id, s.rqsts[id])
             && FinData(c, s.disk, s.stored, s.rqsts[id])
    ensures var id := s.pipe.finBatch[0];
            && FinAnswer(c, s) == Told(s.rqsts[id], s.wanted[id])
            && FinOne(c, s).calls == s.calls[id := s.calls[id] + 1]
            && FinOne(c, s).answers == s.answers[id := Told(s.rqsts[id], s.wanted[id])]
  {
  }

  lemma CallAnswers(c: Config, s: State, call: Call, id: Id)
    requires S.Stages(s) && CallPossible(c, s, call) && CallDefined(s, call) && Unanswered(s.calls, id)
    ensures Unanswered(AfterCall(c, s, call).calls, id)
  {
    if !Asks(call) { CallFrame(c, s, call); }
  }

  lemma ClientAnswers(c: Config, s: State, call: Call, id: Id)
    requires S.Stages(s) && CallPossible(c, s, call) && CallDefined(s, call) && Unanswered(s.calls, id)
    ensures RightlyTold(c, s, Client(call), AfterCall(c, s, call), id)
  {
    CallAnswers(c, s, call, id);
  }

  /** Requests are answered by full rings, with an error, and by the finalizer, with what came
      of them. */
  lemma StepAnswers(c: Config, s: State, step: Step, id: Id)
    requires Consistent(c, s) && Possible(c, s, step) && Defined(c, s, step) && Unanswered(s.calls, id)
    ensures RightlyTold(c, s, step, Next(c, s, step), id)
  {
    if step.Client? {
      ClientAnswers(c, s, step.call, id);
    } else if step.PollProcess? || step.EngineProcess? || step.FinProcess? {
      ProcessAnswers(c, s, step, id);
    } else {
      OthersAnswerNone(c, s, step, id);
    }
  }

  lemma ProcessAnswers(c: Config, s: State, step: Step, id: Id)
    requires Consistent(c, s) && Possible(c, s, step) && Defined(c, s, step) && Unanswered(s.calls, id)
    requires step.PollProcess? || step.EngineProcess? || step.FinProcess?
    ensures RightlyTold(c, s, step, Next(c, s, step), id)
  {
    match step
    case PollProcess => PollAnswers(c, s, id);
    case EngineProcess(lba, pad) => EngineAnswers(c, s, lba, pad, id);
    case FinProcess => FinAnswers(c, s, id);
  }

  lemma OthersAnswerNone(c: Config, s: State, step: Step, id: Id)
    requires Possible(c, s, step) && Defined(c, s, step) && Unanswered(s.calls, id)
    requires !step.Client? && !step.PollProcess? && !step.EngineProcess? && !step.FinProcess?
    ensures RightlyTold(c, s, step, Next(c, s, step), id)
  {
  }

  /** In every run: a request that was not answered is answered by a step if and only if that
      step finds the ring full it was to go to, with an error, or finalizes it, with the bytes
      of a read that succeeded, OK for another request that did, and an error otherwise. */
  lemma AnsweredIff(c: Config, disk: Bytes, states: seq<State>, steps: seq<Step>, i: nat, id: Id)
    requires O.Run(c, disk, states, steps) && i < |steps| && Unanswered(states[i].calls, id)
    ensures Unanswered(states[i + 1].calls, id) <==>
            !FindsRingFull(c, states[i], steps[i], id) && !Finalizes(states[i], steps[i], id)
    ensures FindsRingFull(c, states[i], steps[i], id) ==> Answered(states[i + 1], id, (UNKNOWN_ERROR, []))
    ensures Finalizes(states[i], steps[i], id) ==>
              && id in states[i].rqsts && id in states[i].wanted
              && Answered(states[i + 1], id, Told(states[i].rqsts[id], states[i].wanted[id]))
  {
    InvAlways(c, disk, states, steps, i);
    StepAnswers(c, states[i], steps[i], id);
  }

  /** How the poller leaves the request at the head of its batch. */
  predicate Polled(c: Config, s: State, t: State, id: Id)
    requires id in s.rqsts
  {
    var r, found := s.rqsts[id], Get(s.index, s.rqsts[id].key);
    if r.op != UPDATE && !found.Found? then
      Answered(t, id, (UNKNOWN_ERROR, [])) && t.pipe.engineRing == s.pipe.engineRing
    else if r.op != UPDATE && found.location == PMEM then
      Answered(t, id, (KEY_NOT_FOUND, [])) && t.pipe.engineRing == s.pipe.engineRing
    else if |s.pipe.engineRing| < c.ring then
      Unanswered(t.calls, id) && t.pipe.engineRing == s.pipe.engineRing + [id]
    else Answered(t, id, (UNKNOWN_ERROR, [])) && t.pipe.engineRing == s.pipe.engineRing
  }

  /** Whatever the clients do: a read or removal whose key the poller does not find is told of
      an error, one whose key it finds in memory that there is no such key on the device, and
      neither goes any further; all others do, if there is room. */
  lemma PollRefuses(c: Config, s: State)
    requires S.Stages(s) && s.pipe.pollBatch != []
    ensures Known(s, s.pipe.pollBatch[0])
    ensures Polled(c, s, PollOne(c, s), s.pipe.pollBatch[0])
  {
    S.InPipeIsKnown(s, s.pipe.pollBatch[0]);
    PollVerdictTold(c, s);
  }

  lemma PollVerdictTold(c: Config, s: State)
    requires s.pipe.pollBatch != [] && Known(s, s.pipe.pollBatch[0]) && s.calls[s.pipe.pollBatch[0]] == 0
    ensures Polled(c, s, PollOne(c, s), s.pipe.pollBatch[0])
  {
    RouteTells(c, PollEffect(s), s.pipe.pollBatch[0], PollVerdict(s));
  }

  lemma RouteTells(c: Config, s: State, id: Id, v: Option<Code>)
    requires id in s.calls && id in s.returned && s.calls[id] == 0
    ensures var t := Route(c, s, id, v);
            if v.None? && |s.pipe.engineRing| < c.ring
            then Unanswered(t.calls, id) && t.pipe.engineRing == s.pipe.engineRing + [id]
            else Answered(t, id, (if v.Some? then v.value else UNKNOWN_ERROR, []))
                 && t.pipe.engineRing == s.pipe.engineRing
  {
  }

  // ---- A request from the asking on ----

  /** What the request is and what it wants. */
  predicate IsFor(s: State, id: Id, op: Kind, k: Key, wanted: Bytes) {
    id in s.rqsts && s.rqsts[id].op == op && s.rqsts[id].key == k && id in s.wanted && s.wanted[id] == wanted
  }

  lemma CallKeepsFor(c: Config, s: State, call: Call, id: Id, op: Kind, k: Key, wanted: Bytes)
    requires S.Stages(s) && CallPossible(c, s, call) && CallDefined(s, call) && IsFor(s, id, op, k, wanted)
    ensures IsFor(AfterCall(c, s, call), id, op, k, wanted)
  {
    if !Asks(call) { CallFrame(c, s, call); }
  }

  lemma StaysFor(c: Config, s: State, step: Step, id: Id, op: Kind, k: Key, wanted: Bytes)
    requires S.Stages(s) && Possible(c, s, step) && Defined(c, s, step) && IsFor(s, id, op, k, wanted)
    ensures IsFor(Next(c, s, step), id, op, k, wanted)
  {
    if step.Client? {
      CallKeepsFor(c, s, step.call, id, op, k, wanted);
    } else if step.PollProcess? || step.EngineProcess? || step.Complete? {
      ProcessStaysFor(c, s, step, id, op, k, wanted);
    }
  }

  lemma ProcessStaysFor(c: Config, s: State, step: Step, id: Id, op: Kind, k: Key, wanted: Bytes)
    requires Possible(c, s, step) && Defined(c, s, step) && IsFor(s, id, op, k, wanted)
    requires step.PollProcess? || step.EngineProcess? || step.Complete?
    ensures IsFor(Next(c, s, step), id, op, k, wanted)
  {
  }

  /** Which request a client makes, and what it asks for. */
  function Asked(call: Call): (r: Option<(Kind, Key)>) {
    match call
    case AskGet(k) => Some((GET, k))
    case AskUpdate(k) => Some((UPDATE, k))
    case AskRemove(k) => Some((REMOVE, k))
    case _ => None
  }

  ghost predicate AsksAt(steps: seq<Step>, a: nat, op: Kind, k: Key) {
    a < |steps| && steps[a].Client? && Asked(steps[a].call) == Some((op, k))
  }

  lemma AskedIs(c: Config, s: State, call: Call, op: Kind, k: Key)
    requires CallPossible(c, s, call) && CallDefined(s, call) && Asked(call) == Some((op, k))
    ensures k in s.stored && IsFor(AfterCall(c, s, call), s.next, op, k, s.stored[k])
  {
  }

  lemma ForFirst(c: Config, disk: Bytes, states: seq<State>, steps: seq<Step>, a: nat, op: Kind, k: Key)
    requires O.Run(c, disk, states, steps) && a < |steps| && AsksAt(steps, a, op, k)
    ensures k in states[a].stored && IsFor(states[a + 1], states[a].next, op, k, states[a].stored[k])
  {
    InvAlways(c, disk, states, steps, a);
    AskedIs(c, states[a], steps[a].call, op, k);
  }

  lemma ForNext(c: Config, disk: Bytes, states: seq<State>, steps: seq<Step>, i: nat, id: Id, op: Kind, k: Key,
                wanted: Bytes)
    requires O.Run(c, disk, states, steps) && i < |steps| && IsFor(states[i], id, op, k, wanted)
    ensures IsFor(states[i + 1], id, op, k, wanted)
  {
    InvAlways(c, disk, states, steps, i);
    StaysFor(c, states[i], steps[i], id, op, k, wanted);
  }

  lemma {:induction false} ForAlong(c: Config, disk: Bytes, states: seq<State>, steps: seq<Step>, a: nat, i: nat,
                                    op: Kind, k: Key)
    requires O.Run(c, disk, states, steps) && a < i <= |steps| && AsksAt(steps, a, op, k)
    ensures k in states[a].stored && IsFor(states[i], states[a].next, op, k, states[a].stored[k])
    decreases i
  {
    if a + 1 == i {
      ForFirst(c, disk, states, steps, a, op, k);
    } else {
      ForAlong(c, disk, states, steps, a, i - 1, op, k);
      ForNext(c, disk, states, steps, i - 1, states[a].next, op, k, states[a].stored[k]);
    }
  }

  // ---- From the completion to the finalizer ----

  /** The request left the device. */
  predicate Left(p: Pipe, id: Id) {
    id !in p.pollRing && id !in p.pollBatch && id !in p.engineRing && id !in p.engineBatch && id !in p.device
  }

  lemma CallLeaves(c: Config, s: State, call: Call, id: Id)
    requires S.Stages(s) && CallPossible(c, s, call) && CallDefined(s, call) && id in s.rqsts && Left(s.pipe, id)
    ensures KeepsLeft(s, AfterCall(c, s, call), id)
  {
    if !Asks(call) { CallFrame(c, s, call); }
  }

  /** What t keeps of a request that left the device. */
  predicate KeepsLeft(s: State, t: State, id: Id)
    requires id in s.rqsts
  {
    id in t.rqsts && t.rqsts[id] == s.rqsts[id] && Left(t.pipe, id)
  }

  lemma PollLeaves(c: Config, s: State, id: Id)
    requires id in s.rqsts && Left(s.pipe, id) && s.pipe.pollBatch != [] && Known(s, s.pipe.pollBatch[0])
    ensures KeepsLeft(s, PollOne(c, s), id)
  {
  }

  lemma EngineLeaves(c: Config, s: State, lba: nat, pad: Bytes, id: Id)
    requires id in s.rqsts && Left(s.pipe, id) && s.pipe.engineBatch != [] && Known(s, s.pipe.engineBatch[0])
    requires Submittable(s, s.rqsts[s.pipe.engineBatch[0]])
    ensures KeepsLeft(s, EngineOne(c, s, lba, pad), id)
  {
  }

  lemma DeviceLeaves(c: Config, s: State, i: nat, ok: bool, junk: Bytes, id: Id)
    requires id in s.rqsts && Left(s.pipe, id) && i < |s.pipe.device| && s.pipe.device[i] in s.rqsts
    requires TransferFits(c, s.disk, s.rqsts[s.pipe.device[i]], junk)
    ensures KeepsLeft(s, CompleteOne(c, s, i, ok, junk), id)
  {
  }

  lemma ProcessLeaves(c: Config, s: State, step: Step, id: Id)
    requires id in s.rqsts && Left(s.pipe, id) && Possible(c, s, step) && Defined(c, s, step)
    requires step.PollProcess? || step.EngineProcess? || step.Complete?
    ensures KeepsLeft(s, Next(c, s, step), id)
  {
    match step
    case PollProcess => PollLeaves(c, s, id);
    case EngineProcess(lba, pad) => EngineLeaves(c, s, lba, pad, id);
    case Complete(i, ok, junk) => DeviceLeaves(c, s, i, ok, junk, id);
  }

  lemma FinalizerLeaves(c: Config, s: State, step: Step, id: Id)
    requires id in s.rqsts && Left(s.pipe, id) && Possible(c, s, step) && Defined(c, s, step)
    requires !step.Client? && !step.PollProcess? && !step.EngineProcess? && !step.Complete?
    ensures KeepsLeft(s, Next(c, s, step), id)
  {
  }

  lemma LeftStays(c: Config, s: State, step: Step, id: Id)
    requires S.Stages(s) && Possible(c, s, step) && Defined(c, s, step) && id in s.rqsts && Left(s.pipe, id)
    ensures KeepsLeft(s, Next(c, s, step), id)
  {
    if step.Client? {
      CallLeaves(c, s, step.call, id);
    } else if step.PollProcess? || step.EngineProcess? || step.Complete? {
      ProcessLeaves(c, s, step, id);
    } else {
      FinalizerLeaves(c, s, step, id);
    }
  }

  lemma LeftNext(c: Config, disk: Bytes, states: seq<State>, steps: seq<Step>, i: nat, id: Id)
    requires O.Run(c, disk, states, steps) && i < |steps| && id in states[i].rqsts && Left(states[i].pipe, id)
    ensures KeepsLeft(states[i], states[i + 1], id)
  {
    InvAlways(c, disk, states, steps, i);
    LeftStays(c, states[i], steps[i], id);
  }

  lemma {:induction false} LeftAlong(c: Config, disk: Bytes, states: seq<State>, steps: seq<Step>, i: nat, j: nat,
                                     id: Id)
    requires O.Run(c, disk, states, steps) && i <= j <= |steps| && id in states[i].rqsts && Left(states[i].pipe, id)
    ensures id in states[j].rqsts && states[j].rqsts[id] == states[i].rqsts[id]
    ensures Left(states[j].pipe, id)
    decreases j
  {
    if i < j {
      LeftAlong(c, disk, states, steps, i, j - 1, id);
      LeftNext(c, disk, states, steps, j - 1, id);
    }
  }

  /** The transfer of the request completes. */
  predicate CompletesAt(s: State, step: Step, id: Id, ok: bool) {
    step.Complete? && step.i < |s.pipe.device| && s.pipe.device[step.i] == id && step.ok == ok
  }

  lemma CompletedLeaves(c: Config, s: State, i: nat, ok: bool, junk: Bytes)
    requires S.Stages(s) && i < |s.pipe.device| && s.pipe.device[i] in s.rqsts
    requires TransferFits(c, s.disk, s.rqsts[s.pipe.device[i]], junk)
    ensures var id, t := s.pipe.device[i], CompleteOne(c, s, i, ok, junk);
            && id in t.rqsts && t.rqsts[id].result == ok && t.rqsts[id].lba == s.rqsts[id].lba
            && t.rqsts[id].size == s.rqsts[id].size && Left(t.pipe, id)
  {
    var id, t := s.pipe.device[i], CompleteOne(c, s, i, ok, junk);
    S.CompleteKeeps(c, s, i, ok, junk);
    assert S.Places(t.pipe, id) == multiset(S.UnansweredSet(t))[id] <= 1;
  }

  /** The request as the finalizer finds it. */
  lemma CompletedFor(c: Config, disk: Bytes, states: seq<State>, steps: seq<Step>, i: nat, j: nat, id: Id, ok: bool)
    requires O.Run(c, disk, states, steps) && i < j < |steps|
    requires CompletesAt(states[i], steps[i], id, ok) && id in states[i].rqsts
    ensures id in states[j].rqsts && states[j].rqsts[id].result == ok
    ensures states[j].rqsts[id].lba == states[i].rqsts[id].lba && states[j].rqsts[id].size == states[i].rqsts[id].size
  {
    InvAlways(c, disk, states, steps, i);
    CompletedLeaves(c, states[i], steps[i].i, ok, steps[i].junk);
    LeftAlong(c, disk, states, steps, i + 1, j, id);
  }

  // ---- Every request does its work ----

  /** In every run a read whose transfer succeeds is answered, when it is finalized, with the
      bytes that were stored when it was asked for; one whose transfer fails gets an error. */
  lemma GetDelivers(c: Config, disk: Bytes, states: seq<State>, steps: seq<Step>, a: nat, i: nat, j: nat, k: Key,
                    ok: bool)
    requires O.Run(c, disk, states, steps) && a < i < j < |steps| && AsksAt(steps, a, GET, k)
    requires CompletesAt(states[i], steps[i], states[a].next, ok)
    requires Finalizes(states[j], steps[j], states[a].next)
    ensures k in states[a].stored
    ensures Answered(states[j + 1], states[a].next, if ok then (OK, states[a].stored[k]) else (UNKNOWN_ERROR, []))
  {
    var id := states[a].next;
    ForAlong(c, disk, states, steps, a, i, GET, k);
    ForAlong(c, disk, states, steps, a, j, GET, k);
    CompletedFor(c, disk, states, steps, i, j, id, ok);
    FinalizedIsUnanswered(c, disk, states, steps, j, id);
    AnsweredIff(c, disk, states, steps, j, id);
  }

  lemma FinalizedIsUnanswered(c: Config, disk: Bytes, states: seq<State>, steps: seq<Step>, j: nat, id: Id)
    requires O.Run(c, disk, states, steps) && j < |steps| && Finalizes(states[j], steps[j], id)
    ensures Unanswered(states[j].calls, id)
  {
    InvAlways(c, disk, states, steps, j);
    HeadIsUnanswered(states[j]);
  }

  lemma HeadIsUnanswered(s: State)
    requires S.Stages(s) && s.pipe.finBatch != []
    ensures Unanswered(s.calls, s.pipe.finBatch[0])
  {
    S.InPipeIsKnown(s, s.pipe.finBatch[0]);
  }

  lemma FinMoves(c: Config, s: State, id: Id)
    requires Consistent(c, s) && Enabled(c, s, FinProcess) && Finalizes(s, FinProcess, id)
    requires id in s.rqsts && s.rqsts[id].op == UPDATE
    ensures Defined(c, s, FinProcess)
    ensures var r, t := s.rqsts[id], Next(c, s, FinProcess);
            if r.result then Get(t.index, r.key) == Found(DISK, Device(DeviceAddr(r.lba, c.busAddr)), r.size)
            else t.index == s.index
  {
    AlwaysDefined(c, s, FinProcess);
    FinDefined(c, s);
    MovedByFin(c, s);
  }

  lemma MovedByFin(c: Config, s: State)
    requires s.pipe.finBatch != [] && Known(s, s.pipe.finBatch[0]) && s.rqsts[s.pipe.finBatch[0]].op == UPDATE
    requires var r := s.rqsts[s.pipe.finBatch[0]]; r.key in s.index && s.index[r.key].size == r.size
    ensures var r, t := s.rqsts[s.pipe.finBatch[0]], FinOne(c, s);
            if r.result then Get(t.index, r.key) == Found(DISK, Device(DeviceAddr(r.lba, c.busAddr)), r.size)
            else t.index == s.index
  {
  }

  /** In every run an offload whose transfer succeeds is answered OK when it is finalized, and
      the key is then on the device where it was written; one whose transfer fails gets an
      error, and the tree is as it was. */
  lemma UpdateDelivers(c: Config, disk: Bytes, states: seq<State>, steps: seq<Step>, a: nat, i: nat, j: nat, k: Key,
                       ok: bool)
    requires O.Run(c, disk, states, steps) && a < i < j < |steps| && AsksAt(steps, a, UPDATE, k)
    requires CompletesAt(states[i], steps[i], states[a].next, ok)
    requires Finalizes(states[j], steps[j], states[a].next)
    ensures Answered(states[j + 1], states[a].next, if ok then (OK, []) else (UNKNOWN_ERROR, []))
    ensures states[a].next in states[i].rqsts
    ensures if ok then
              var r := states[i].rqsts[states[a].next];
              Get(states[j + 1].index, k) == Found(DISK, Device(DeviceAddr(r.lba, c.busAddr)), r.size)
            else states[j + 1].index == states[j].index
  {
    var id := states[a].next;
    ForAlong(c, disk, states, steps, a, i, UPDATE, k);
    ForAlong(c, disk, states, steps, a, j, UPDATE, k);
    CompletedFor(c, disk, states, steps, i, j, id, ok);
    FinalizedIsUnanswered(c, disk, states, steps, j, id);
    AnsweredIff(c, disk, states, steps, j, id);
    InvAlways(c, disk, states, steps, j);
    FinMoves(c, states[j], id);
  }

  // ---- Removals ----

  /** Removals that reached the finalizer go through. */
  ghost predicate RemovalsGo(s: State) {
    forall id :: id in s.rqsts && s.rqsts[id].op == REMOVE && (id in s.pipe.finRing || id in s.pipe.finBatch) ==>
                   s.rqsts[id].result
  }

  lemma CallRemovals(c: Config, s: State, call: Call)
    requires S.Stages(s) && CallPossible(c, s, call) && CallDefined(s, call) && RemovalsGo(s)
    ensures RemovalsGo(AfterCall(c, s, call))
  {
    if !Asks(call) {
      CallFrame(c, s, call);
    } else {
      NextIsNew(s);
    }
  }

  /** The next request is not yet anywhere. */
  lemma NextIsNew(s: State)
    requires S.Stages(s)
    ensures s.next !in s.pipe.finRing && s.next !in s.pipe.finBatch
  {
    assert S.Places(s.pipe, s.next) == multiset(S.UnansweredSet(s))[s.next];
  }

  lemma PollRemovals(c: Config, s: State)
    requires RemovalsGo(s) && s.pipe.pollBatch != [] && Known(s, s.pipe.pollBatch[0])
    ensures RemovalsGo(PollOne(c, s))
  {
  }

  lemma EngineRemovals(c: Config, s: State, lba: nat, pad: Bytes)
    requires RemovalsGo(s) && s.pipe.engineBatch != [] && Known(s, s.pipe.engineBatch[0])
    requires Submittable(s, s.rqsts[s.pipe.engineBatch[0]])
    ensures RemovalsGo(EngineOne(c, s, lba, pad))
  {
  }

  lemma CompleteRemovals(c: Config, s: State, i: nat, ok: bool, junk: Bytes)
    requires RemovalsGo(s) && i < |s.pipe.device| && s.pipe.device[i] in s.rqsts
    requires s.rqsts[s.pipe.device[i]].op != REMOVE && TransferFits(c, s.disk, s.rqsts[s.pipe.device[i]], junk)
    ensures RemovalsGo(CompleteOne(c, s, i, ok, junk))
  {
  }

  lemma ProcessRemovals(c: Config, s: State, step: Step)
    requires Consistent(c, s) && Possible(c, s, step) && Defined(c, s, step) && RemovalsGo(s)
    requires step.PollProcess? || step.EngineProcess? || step.Complete?
    ensures RemovalsGo(Next(c, s, step))
  {
    match step
    case PollProcess => PollRemovals(c, s);
    case EngineProcess(lba, pad) => EngineRemovals(c, s, lba, pad);
    case Complete(i, ok, junk) =>
      NoRemovalOnDevice(c, s, i);
      CompleteRemovals(c, s, i, ok, junk);
  }

  lemma NoRemovalOnDevice(c: Config, s: State, i: nat)
    requires Data(c, s) && i < |s.pipe.device|
    ensures s.pipe.device[i] in s.rqsts && s.rqsts[s.pipe.device[i]].op != REMOVE
  {
    assert DeviceData(c, s.index, s.disk, s.stored, s.rqsts[s.pipe.device[i]]);
  }

  lemma FinalizerRemovals(c: Config, s: State, step: Step)
    requires Possible(c, s, step) && Defined(c, s, step) && RemovalsGo(s)
    requires !step.Client? && !step.PollProcess? && !step.EngineProcess? && !step.Complete?
    ensures RemovalsGo(Next(c, s, step))
  {
  }

  lemma RemovalsStep(c: Config, s: State, step: Step)
    requires Consistent(c, s) && Possible(c, s, step) && Defined(c, s, step) && RemovalsGo(s)
    ensures RemovalsGo(Next(c, s, step))
  {
    if step.Client? {
      CallRemovals(c, s, step.call);
    } else if step.PollProcess? || step.EngineProcess? || step.Complete? {
      ProcessRemovals(c, s, step);
    } else {
      FinalizerRemovals(c, s, step);
    }
  }

  lemma {:induction false} RemovalsAlong(c: Config, disk: Bytes, states: seq<State>, steps: seq<Step>, i: nat)
    requires O.Run(c, disk, states, steps) && i <= |steps|
    ensures RemovalsGo(states[i])
  {
    if i > 0 {
      RemovalsAlong(c, disk, states, steps, i - 1);
      InvAlways(c, disk, states, steps, i - 1);
      RemovalsStep(c, states[i - 1], steps[i - 1]);
    }
  }

  lemma FinRemoves(c: Config, s: State, id: Id)
    requires Consistent(c, s) && Enabled(c, s, FinProcess) && Finalizes(s, FinProcess, id)
    requires id in s.rqsts && s.rqsts[id].op == REMOVE && s.rqsts[id].result
    ensures Defined(c, s, FinProcess)
    ensures var k, t := s.rqsts[id].key, Next(c, s, FinProcess);
            t.stored == s.stored - {k} && Get(t.index, k) == KeyNotFound
  {
    AlwaysDefined(c, s, FinProcess);
    RemovedByFin(c, s);
  }

  lemma RemovedByFin(c: Config, s: State)
    requires s.pipe.finBatch != [] && Known(s, s.pipe.finBatch[0])
    requires s.rqsts[s.pipe.finBatch[0]].op == REMOVE && s.rqsts[s.pipe.finBatch[0]].result
    ensures var k, t := s.rqsts[s.pipe.finBatch[0]].key, FinOne(c, s);
            t.stored == s.stored - {k} && Get(t.index, k) == KeyNotFound
  {
  }

  /** In every run a removal from the device that is finalized is answered OK, and its key,
      and no other, is gone. */
  lemma RemoveDelivers(c: Config, disk: Bytes, states: seq<State>, steps: seq<Step>, a: nat, j: nat, k: Key)
    requires O.Run(c, disk, states, steps) && a < j < |steps| && AsksAt(steps, a, REMOVE, k)
    requires Finalizes(states[j], steps[j], states[a].next)
    ensures Answered(states[j + 1], states[a].next, (OK, []))
    ensures states[j + 1].stored == states[j].stored - {k} && Get(states[j + 1].index, k) == KeyNotFound
  {
    var id := states[a].next;
    ForAlong(c, disk, states, steps, a, j, REMOVE, k);
    RemovalsAlong(c, disk, states, steps, j);
    FinalizedIsUnanswered(c, disk, states, steps, j, id);
    AnsweredIff(c, disk, states, steps, j, id);
    InvAlways(c, disk, states, steps, j);
    FinRemoves(c, states[j], id);
  }
}
