/** Particular runs of the offload pipeline: a request goes all the way, and the runs that
    show what the pipeline does not promise. */
module OffloadRuns {
  import opened Basics
  import opened ValueIndex
  import opened Extents
  import opened OffloadState
  import O = OffloadState
  import Paths

  // ---- Paths ----

  ghost predicate Takes(c: Config, s: State, step: Step, t: State, careful: bool) {
    Possible(c, s, step) && (careful ==> Careful(s, step)) && Defined(c, s, step) && t == Next(c, s, step)
  }

  ghost function Relation(c: Config, careful: bool): (State, Step, State) -> bool {
    (s, step, t) => Takes(c, s, step, t, careful)
  }

  /** The steps can be taken one after the other from s, and lead to t. */
  ghost predicate Leads(c: Config, s: State, steps: seq<Step>, t: State, careful: bool) {
    Paths.Leads(Relation(c, careful), s, steps, t)
  }

  lemma OneStep(c: Config, s: State, step: Step, t: State, careful: bool)
    requires Takes(c, s, step, t, careful)
    ensures Leads(c, s, [step], t, careful)
  {
    Paths.OneStep(Relation(c, careful), s, step, t);
  }

  lemma Then(c: Config, s: State, a: seq<Step>, t: State, b: seq<Step>, u: State, careful: bool)
    requires Leads(c, s, a, t, careful) && Leads(c, t, b, u, careful)
    ensures Leads(c, s, a + b, u, careful)
  {
    Paths.Then(Relation(c, careful), s, a, t, b, u);
  }

  /** A run without the clients' care: the steps are only possible. */
  ghost predicate CarelessRun(c: Config, disk: Bytes, states: seq<State>, steps: seq<Step>) {
    && |states| == |steps| + 1 && states[0] == Initial(disk)
    && forall i :: 0 <= i < |steps| ==>
         && Possible(c, states[i], steps[i])
         && (Defined(c, states[i], steps[i]) ==> states[i + 1] == Next(c, states[i], steps[i]))
  }

  lemma PathIsRun(c: Config, disk: Bytes, states: seq<State>, steps: seq<Step>)
    requires Paths.Path(Relation(c, true), states, steps) && states[0] == Initial(disk)
    ensures O.Run(c, disk, states, steps)
  {
    forall i | 0 <= i < |steps|
      ensures Enabled(c, states[i], steps[i]) && Defined(c, states[i], steps[i])
              && states[i + 1] == Next(c, states[i], steps[i])
    {
      assert Relation(c, true)(states[i], steps[i], states[i + 1]);
    }
  }

  lemma PathIsCareless(c: Config, disk: Bytes, states: seq<State>, steps: seq<Step>)
    requires Paths.Path(Relation(c, false), states, steps) && states[0] == Initial(disk)
    ensures CarelessRun(c, disk, states, steps)
  {
    forall i | 0 <= i < |steps|
      ensures Possible(c, states[i], steps[i]) && Defined(c, states[i], steps[i])
              && states[i + 1] == Next(c, states[i], steps[i])
    {
      assert Relation(c, false)(states[i], steps[i], states[i + 1]);
    }
  }

  lemma CarefulIsRun(c: Config, disk: Bytes, steps: seq<Step>, t: State) returns (states: seq<State>)
    requires Leads(c, Initial(disk), steps, t, true)
    ensures O.Run(c, disk, states, steps) && states[|steps|] == t
  {
    states :| Paths.Path(Relation(c, true), states, steps) && states[0] == Initial(disk) && states[|steps|] == t;
    PathIsRun(c, disk, states, steps);
  }

  lemma CarelessIsRun(c: Config, disk: Bytes, steps: seq<Step>, t: State) returns (states: seq<State>)
    requires Leads(c, Initial(disk), steps, t, false)
    ensures CarelessRun(c, disk, states, steps) && states[|steps|] == t
  {
    states :| Paths.Path(Relation(c, false), states, steps) && states[0] == Initial(disk) && states[|steps|] == t;
    PathIsCareless(c, disk, states, steps);
  }

  // ---- A request on its way ----

  /** The request at the head of the poller's ring has reached the engine's batch. */
  function AtEngine(s: State, id: Id): (s': State)
    requires s.pipe.pollRing != [] && id in s.rqsts
  {
    s.(pipe := s.pipe.(pollRing := s.pipe.pollRing[1..], engineBatch := [id]),
       rqsts := s.rqsts[id := RoutedRqst(s.index, s.rqsts[id])])
  }

  predicate Passable(s: State, r: Rqst) {
    r.op == UPDATE || (Get(s.index, r.key).Found? && Get(s.index, r.key).location == DISK)
  }

  lemma PollDequeued(c: Config, s: State, careful: bool)
    requires s.pipe.pollRing != [] && s.pipe.pollBatch == []
    ensures Leads(c, s, [PollDequeue(1)],
                  s.(pipe := s.pipe.(pollRing := s.pipe.pollRing[1..], pollBatch := [s.pipe.pollRing[0]])), careful)
  {
    assert s.pipe.pollRing[..1] == [s.pipe.pollRing[0]];
    OneStep(c, s, PollDequeue(1), Next(c, s, PollDequeue(1)), careful);
  }

  lemma PollProcessed(c: Config, s: State, id: Id, careful: bool)
    requires s.pipe.pollBatch == [id] && s.pipe.engineRing == [] && Known(s, id) && Passable(s, s.rqsts[id])
             && c.ring > 0
    ensures Leads(c, s, [PollProcess],
                  s.(pipe := s.pipe.(pollBatch := [], engineRing := [id]),
                     rqsts := s.rqsts[id := RoutedRqst(s.index, s.rqsts[id])]), careful)
  {
    assert PollVerdict(s) == None;
    assert [id][1..] == [];
    assert PollOne(c, s) == s.(pipe := s.pipe.(pollBatch := [], engineRing := [id]),
                               rqsts := s.rqsts[id := RoutedRqst(s.index, s.rqsts[id])]);
    OneStep(c, s, PollProcess, PollOne(c, s), careful);
  }

  lemma EngineDequeued(c: Config, s: State, id: Id, careful: bool)
    requires s.pipe.engineRing == [id] && s.pipe.engineBatch == [] && s.ioBufsInUse < c.maxIoBufs
    ensures Leads(c, s, [EngineDequeue(1)], s.(pipe := s.pipe.(engineRing := [], engineBatch := [id])), careful)
  {
    assert [id][..1] == [id] && [id][1..] == [];
    OneStep(c, s, EngineDequeue(1), Next(c, s, EngineDequeue(1)), careful);
  }

  /** Through the poller and to the engine: nothing is in the way when there is a buffer. */
  lemma ReachesEngine(c: Config, s: State, id: Id, careful: bool)
    requires s.pipe.pollRing != [] && id == s.pipe.pollRing[0] && s.pipe.pollBatch == []
    requires s.pipe.engineRing == [] && s.pipe.engineBatch == []
    requires Known(s, id) && Passable(s, s.rqsts[id]) && c.ring > 0 && s.ioBufsInUse < c.maxIoBufs
    ensures Leads(c, s, [PollDequeue(1), PollProcess, EngineDequeue(1)], AtEngine(s, id), careful)
  {
    var s1 := s.(pipe := s.pipe.(pollRing := s.pipe.pollRing[1..], pollBatch := [id]));
    var s2 := s1.(pipe := s1.pipe.(pollBatch := [], engineRing := [id]),
                  rqsts := s.rqsts[id := RoutedRqst(s.index, s.rqsts[id])]);
    PollDequeued(c, s, careful);
    PollProcessed(c, s1, id, careful);
    EngineDequeued(c, s2, id, careful);
    Then(c, s, [PollDequeue(1)], s1, [PollProcess], s2, careful);
    Then(c, s, [PollDequeue(1)] + [PollProcess], s2, [EngineDequeue(1)], AtEngine(s, id), careful);
    assert [PollDequeue(1)] + [PollProcess] + [EngineDequeue(1)] == [PollDequeue(1), PollProcess, EngineDequeue(1)];
  }

  // ---- The transfer ----

  /** The engine can take the request in its batch, and the device has it alone. */
  ghost predicate Transferable(c: Config, s: State, id: Id, lba: nat, pad: Bytes) {
    && s.pipe.engineBatch == [id] && s.pipe.device == [] && Known(s, id)
    && var r := s.rqsts[id];
       match r.op
       case GET => r.key in s.index && s.index[r.key].ptr.Device?
           && Inside(c.extent(s.index[r.key].ptr.dev.lba, r.size), |s.disk|)
       case UPDATE =>
         && r.value in s.heap && |s.heap[r.value]| == r.size && FreeExtent(c, s, c.extent(lba, r.size))
         && r.size + |pad| == c.extent(lba, r.size).length
       case REMOVE => false
  }

  /** The engine handed the one request in its batch to the device. */
  function Submitted(s: State, id: Id, lba: nat, pad: Bytes): (s': State)
    requires id in s.rqsts && Submittable(s, s.rqsts[id])
  {
    s.(pipe := s.pipe.(engineBatch := [], device := [id]), ioBufsInUse := s.ioBufsInUse + 1,
       rqsts := s.rqsts[id := BuiltRqst(s, s.rqsts[id], lba, pad)])
  }

  lemma SubmittedIs(c: Config, s: State, id: Id, lba: nat, pad: Bytes)
    requires s.pipe.engineBatch == [id] && s.pipe.device == [] && Known(s, id)
    requires Submittable(s, s.rqsts[id]) && s.rqsts[id].op != REMOVE
    ensures EngineOne(c, s, lba, pad) == Submitted(s, id, lba, pad)
  {
    assert [id][1..] == [] && [] + [id] == [id];
    assert EngineEffect(s, lba, pad) ==
           s.(pipe := s.pipe.(engineBatch := []), ioBufsInUse := s.ioBufsInUse + 1,
              rqsts := s.rqsts[id := BuiltRqst(s, s.rqsts[id], lba, pad)]);
  }

  lemma EngineProcessed(c: Config, s: State, id: Id, lba: nat, pad: Bytes, careful: bool)
    requires Transferable(c, s, id, lba, pad)
    ensures Leads(c, s, [EngineProcess(lba, pad)], Submitted(s, id, lba, pad), careful)
  {
    SubmittedIs(c, s, id, lba, pad);
    OneStep(c, s, EngineProcess(lba, pad), Submitted(s, id, lba, pad), careful);
  }

  /** The transfer succeeded and was handed on, or lost. */
  function Completed(c: Config, s: State, id: Id, junk: Bytes): (s': State)
    requires id in s.rqsts && TransferFits(c, s.disk, s.rqsts[id], junk)
  {
    var r := s.rqsts[id];
    s.(pipe := HandOn(c, s.pipe.(device := []), id),
       ioBufsInUse := s.ioBufsInUse - Weight(r.op == UPDATE),
       disk := CompletedDisk(c, s.disk, r, true, junk),
       rqsts := s.rqsts[id := CompletedRqst(c, s.disk, r, true, junk)])
  }

  lemma TransferCompleted(c: Config, s: State, id: Id, junk: Bytes, careful: bool)
    requires s.pipe.device == [id] && id in s.rqsts && TransferFits(c, s.disk, s.rqsts[id], junk)
    ensures Leads(c, s, [Complete(0, true, junk)], Completed(c, s, id, junk), careful)
  {
    assert [id][..0] + [id][1..] == [];
    assert CompleteOne(c, s, 0, true, junk) == Completed(c, s, id, junk);
    OneStep(c, s, Complete(0, true, junk), CompleteOne(c, s, 0, true, junk), careful);
  }

  // ---- Finalizing ----

  lemma FinDequeued(c: Config, s: State, id: Id, careful: bool)
    requires s.pipe.finRing != [] && id == s.pipe.finRing[0] && s.pipe.finBatch == []
    ensures Leads(c, s, [FinDequeue(1)], s.(pipe := s.pipe.(finRing := s.pipe.finRing[1..], finBatch := [id])), careful)
  {
    assert s.pipe.finRing[..1] == [id];
    OneStep(c, s, FinDequeue(1), s.(pipe := s.pipe.(finRing := s.pipe.finRing[1..], finBatch := [id])), careful);
  }

  // ---- A whole offload ----

  /** Only the finalizer may have work. */
  predicate Quiet(p: Pipe) {
    p.pollRing == [] && p.pollBatch == [] && p.engineRing == [] && p.engineBatch == [] && p.device == []
  }

  /** The key is in memory, and its value with it. */
  predicate InMemory(s: State, k: Key) {
    && k in s.stored && k in s.index && s.index[k].location == PMEM && s.index[k].locationVolatile == PMEM
    && s.index[k].ptr.Memory? && s.index[k].ptr.addr in s.heap && |s.heap[s.index[k].ptr.addr]| == s.index[k].size
  }

  /** The write of k's value to lba has everything it needs. */
  ghost predicate Writable(c: Config, s: State, k: Key, lba: nat, pad: Bytes) {
    && InMemory(s, k) && FreeExtent(c, s, c.extent(lba, s.index[k].size))
    && s.index[k].size + |pad| == c.extent(lba, s.index[k].size).length
  }

  function WrittenRqst(s: State, k: Key, lba: nat, pad: Bytes): (r: Rqst)
    requires InMemory(s, k)
  {
    Rqst(UPDATE, k, s.index[k].ptr.addr, s.index[k].size, lba, s.heap[s.index[k].ptr.addr] + pad, true)
  }

  /** After the write of k completed: the request waits for the finalizer, or is lost. */
  ghost function Offloaded(c: Config, s: State, k: Key, lba: nat, pad: Bytes): (s': State)
    requires Writable(c, s, k, lba, pad)
  {
    var id, r := s.next, WrittenRqst(s, k, lba, pad);
    s.(next := id + 1, rqsts := s.rqsts[id := r], calls := s.calls[id := 0], returned := s.returned[id := 0],
       wanted := s.wanted[id := s.stored[k]], disk := WriteDisk(s.disk, c.extent(lba, r.size), r.buff),
       pipe := HandOn(c, s.pipe, id))
  }

  lemma Requested(c: Config, s: State, k: Key, careful: bool)
    requires InMemory(s, k) && |s.pipe.pollRing| < c.ring && (careful ==> CallCareful(s, AskUpdate(k)))
    ensures Leads(c, s, [Client(AskUpdate(k))], Submit(s, UPDATE, k, s.index[k].ptr.addr, s.index[k].size), careful)
  {
    OneStep(c, s, Client(AskUpdate(k)), Submit(s, UPDATE, k, s.index[k].ptr.addr, s.index[k].size), careful);
  }

  /** The states on the way. */
  ghost function UpdateAtEngine(s: State, k: Key): (s': State)
    requires InMemory(s, k)
  {
    var id := s.next;
    s.(next := id + 1, calls := s.calls[id := 0], returned := s.returned[id := 0],
       wanted := s.wanted[id := s.stored[k]],
       rqsts := s.rqsts[id := Rqst(UPDATE, k, s.index[k].ptr.addr, s.index[k].size, 0, [], false)],
       pipe := s.pipe.(engineBatch := [id]))
  }

  lemma UpdateReachesEngine(c: Config, s: State, k: Key, careful: bool)
    requires InMemory(s, k) && Quiet(s.pipe) && c.ring > 0 && s.ioBufsInUse < c.maxIoBufs
    requires careful ==> CallCareful(s, AskUpdate(k))
    ensures Leads(c, s, [Client(AskUpdate(k)), PollDequeue(1), PollProcess, EngineDequeue(1)], UpdateAtEngine(s, k),
                  careful)
  {
    var id, s1 := s.next, Submit(s, UPDATE, k, s.index[k].ptr.addr, s.index[k].size);
    Requested(c, s, k, careful);
    assert s1.pipe.pollRing == [id] && [id][1..] == [];
    ReachesEngine(c, s1, id, careful);
    assert AtEngine(s1, id).rqsts == UpdateAtEngine(s, k).rqsts;
    assert AtEngine(s1, id) == UpdateAtEngine(s, k);
    Then(c, s, [Client(AskUpdate(k))], s1, [PollDequeue(1), PollProcess, EngineDequeue(1)], UpdateAtEngine(s, k),
         careful);
    assert [Client(AskUpdate(k))] + [PollDequeue(1), PollProcess, EngineDequeue(1)] ==
           [Client(AskUpdate(k)), PollDequeue(1), PollProcess, EngineDequeue(1)];
  }

  /** A request that only waits for the engine owns nothing yet. */
  lemma WaitingOwnsNothing(c: Config, s: State, k: Key, e: Extent)
    requires FreeExtent(c, s, e) && InMemory(s, k) && Quiet(s.pipe) && Fresh(s)
    ensures FreeExtent(c, UpdateAtEngine(s, k), e)
  {
    var u := UpdateAtEngine(s, k);
    forall o: Owner | Live(u.index, u.stored, u.rqsts, u.pipe, o)
      ensures Disjoint(e, ExtentOf(c, u.index, u.rqsts, o))
    {
      assert Live(s.index, s.stored, s.rqsts, s.pipe, o);
    }
  }

  /** The next request is new to the finalizer. */
  predicate Fresh(s: State) {
    s.next !in s.pipe.finRing && s.next !in s.pipe.finBatch
  }

  lemma OffloadedIs(c: Config, s: State, k: Key, lba: nat, pad: Bytes, junk: Bytes)
    requires Writable(c, s, k, lba, pad) && Quiet(s.pipe) && |junk| == c.extent(lba, s.index[k].size).length
    ensures var u1 := Submitted(UpdateAtEngine(s, k), s.next, lba, pad);
            && u1.pipe.device == [s.next] && TransferFits(c, u1.disk, u1.rqsts[s.next], junk)
            && Completed(c, u1, s.next, junk) == Offloaded(c, s, k, lba, pad)
  {
    var u1 := Submitted(UpdateAtEngine(s, k), s.next, lba, pad);
    assert Completed(c, u1, s.next, junk).rqsts == Offloaded(c, s, k, lba, pad).rqsts;
  }

  lemma WriteGoesThrough(c: Config, s: State, k: Key, lba: nat, pad: Bytes, junk: Bytes, careful: bool)
    requires Writable(c, s, k, lba, pad) && Quiet(s.pipe) && Fresh(s) && |junk| == c.extent(lba, s.index[k].size).length
    ensures Leads(c, UpdateAtEngine(s, k), [EngineProcess(lba, pad), Complete(0, true, junk)],
                  Offloaded(c, s, k, lba, pad), careful)
  {
    var id, u := s.next, UpdateAtEngine(s, k);
    WaitingOwnsNothing(c, s, k, c.extent(lba, s.index[k].size));
    assert Transferable(c, u, id, lba, pad);
    EngineProcessed(c, u, id, lba, pad, careful);
    var u1 := Submitted(u, id, lba, pad);
    OffloadedIs(c, s, k, lba, pad, junk);
    TransferCompleted(c, u1, id, junk, careful);
    Then(c, u, [EngineProcess(lba, pad)], u1, [Complete(0, true, junk)], Offloaded(c, s, k, lba, pad), careful);
    assert [EngineProcess(lba, pad)] + [Complete(0, true, junk)] == [EngineProcess(lba, pad), Complete(0, true, junk)];
  }

  /** The steps of one offload, up to its completion. */
  ghost function OffloadSteps(k: Key, lba: nat, pad: Bytes, junk: Bytes): (steps: seq<Step>) {
    [Client(AskUpdate(k)), PollDequeue(1), PollProcess, EngineDequeue(1),
     EngineProcess(lba, pad), Complete(0, true, junk)]
  }

  /** From every quiet state an offload of a key in memory goes through, given space on the
      device and one buffer. */
  lemma OffloadGoesThrough(c: Config, s: State, k: Key, lba: nat, pad: Bytes, junk: Bytes, careful: bool)
    requires Writable(c, s, k, lba, pad) && Quiet(s.pipe) && Fresh(s) && |junk| == c.extent(lba, s.index[k].size).length
    requires c.ring > 0 && s.ioBufsInUse < c.maxIoBufs && (careful ==> CallCareful(s, AskUpdate(k)))
    ensures Leads(c, s, OffloadSteps(k, lba, pad, junk), Offloaded(c, s, k, lba, pad), careful)
  {
    var u := UpdateAtEngine(s, k);
    UpdateReachesEngine(c, s, k, careful);
    WriteGoesThrough(c, s, k, lba, pad, junk, careful);
    var a, b := [Client(AskUpdate(k)), PollDequeue(1), PollProcess, EngineDequeue(1)],
        [EngineProcess(lba, pad), Complete(0, true, junk)];
    Then(c, s, a, u, b, Offloaded(c, s, k, lba, pad), careful);
    assert a + b == OffloadSteps(k, lba, pad, junk);
  }

  // ---- A whole read ----

  /** The key is on the device. */
  predicate OnDevice(c: Config, s: State, k: Key) {
    && k in s.stored && k in s.index && s.index[k].location == DISK && s.index[k].ptr.Device?
    && Inside(c.extent(s.index[k].ptr.dev.lba, s.index[k].size), |s.disk|)
  }

  function ReadRqst(s: State, k: Key, buff: Bytes, result: bool): (r: Rqst)
    requires k in s.index && s.index[k].ptr.Device?
  {
    Rqst(GET, k, 0, s.index[k].size, s.index[k].ptr.dev.lba, buff, result)
  }

  ghost function GetAtEngine(s: State, k: Key): (s': State)
    requires k in s.stored && k in s.index
  {
    var id := s.next;
    s.(next := id + 1, calls := s.calls[id := 0], returned := s.returned[id := 0],
       wanted := s.wanted[id := s.stored[k]],
       rqsts := s.rqsts[id := Rqst(GET, k, 0, s.index[k].size, 0, [], false)], pipe := s.pipe.(engineBatch := [id]))
  }

  /** After the read of k completed: the request waits for the finalizer, or is lost, and
      holds its buffer. */
  function ReadCompleted(c: Config, s: State, k: Key): (s': State)
    requires OnDevice(c, s, k)
  {
    var id, r := s.next, ReadRqst(s, k, ReadDisk(s.disk, c.extent(s.index[k].ptr.dev.lba, s.index[k].size)), true);
    s.(next := id + 1, rqsts := s.rqsts[id := r], calls := s.calls[id := 0], returned := s.returned[id := 0],
       wanted := s.wanted[id := s.stored[k]], ioBufsInUse := s.ioBufsInUse + 1,
       pipe := HandOn(c, s.pipe, id))
  }

  lemma GetAtEngineIs(s: State, k: Key)
    requires k in s.stored && k in s.index && Get(s.index, k).Found? && Quiet(s.pipe)
    ensures var s1 := Submit(s, GET, k, 0, 0);
            && s1.pipe.pollRing == [s.next] && s1.rqsts[s.next].key == k && s1.rqsts[s.next].op == GET
            && AtEngine(s1, s.next) == GetAtEngine(s, k)
  {
    var s1 := Submit(s, GET, k, 0, 0);
    assert [s.next][1..] == [];
    assert AtEngine(s1, s.next).rqsts == GetAtEngine(s, k).rqsts;
  }

  lemma GetReachesEngine(c: Config, s: State, k: Key, careful: bool)
    requires OnDevice(c, s, k) && Quiet(s.pipe) && c.ring > 0 && s.ioBufsInUse < c.maxIoBufs
    requires careful ==> CallCareful(s, AskGet(k))
    ensures Leads(c, s, [Client(AskGet(k)), PollDequeue(1), PollProcess, EngineDequeue(1)], GetAtEngine(s, k), careful)
  {
    var id, s1 := s.next, Submit(s, GET, k, 0, 0);
    OneStep(c, s, Client(AskGet(k)), s1, careful);
    GetAtEngineIs(s, k);
    ReachesEngine(c, s1, id, careful);
    Then(c, s, [Client(AskGet(k))], s1, [PollDequeue(1), PollProcess, EngineDequeue(1)], GetAtEngine(s, k), careful);
    assert [Client(AskGet(k))] + [PollDequeue(1), PollProcess, EngineDequeue(1)] ==
           [Client(AskGet(k)), PollDequeue(1), PollProcess, EngineDequeue(1)];
  }

  lemma ReadCompletedIs(c: Config, s: State, k: Key, junk: Bytes)
    requires OnDevice(c, s, k) && Quiet(s.pipe)
    requires |junk| == c.extent(s.index[k].ptr.dev.lba, s.index[k].size).length
    ensures var u1 := Submitted(GetAtEngine(s, k), s.next, 0, []);
            && u1.pipe.device == [s.next] && TransferFits(c, u1.disk, u1.rqsts[s.next], junk)
            && Completed(c, u1, s.next, junk) == ReadCompleted(c, s, k)
  {
    var u1 := Submitted(GetAtEngine(s, k), s.next, 0, []);
    assert Completed(c, u1, s.next, junk).rqsts == ReadCompleted(c, s, k).rqsts;
  }

  lemma ReadGoesThrough(c: Config, s: State, k: Key, junk: Bytes, careful: bool)
    requires OnDevice(c, s, k) && Quiet(s.pipe)
    requires |junk| == c.extent(s.index[k].ptr.dev.lba, s.index[k].size).length
    ensures Leads(c, GetAtEngine(s, k), [EngineProcess(0, []), Complete(0, true, junk)], ReadCompleted(c, s, k),
                  careful)
  {
    var id, u := s.next, GetAtEngine(s, k);
    EngineProcessed(c, u, id, 0, [], careful);
    var u1 := Submitted(u, id, 0, []);
    ReadCompletedIs(c, s, k, junk);
    TransferCompleted(c, u1, id, junk, careful);
    Then(c, u, [EngineProcess(0, [])], u1, [Complete(0, true, junk)], ReadCompleted(c, s, k), careful);
    assert [EngineProcess(0, [])] + [Complete(0, true, junk)] == [EngineProcess(0, []), Complete(0, true, junk)];
  }

  ghost function ReadSteps(k: Key, junk: Bytes): (steps: seq<Step>) {
    [Client(AskGet(k)), PollDequeue(1), PollProcess, EngineDequeue(1), EngineProcess(0, []), Complete(0, true, junk)]
  }

  /** From every quiet state a read of a key on the device goes through, given one buffer. */
  lemma GetGoesThrough(c: Config, s: State, k: Key, junk: Bytes, careful: bool)
    requires OnDevice(c, s, k) && Quiet(s.pipe) && c.ring > 0 && s.ioBufsInUse < c.maxIoBufs
    requires |junk| == c.extent(s.index[k].ptr.dev.lba, s.index[k].size).length
             && (careful ==> CallCareful(s, AskGet(k)))
    ensures Leads(c, s, ReadSteps(k, junk), ReadCompleted(c, s, k), careful)
  {
    GetReachesEngine(c, s, k, careful);
    ReadGoesThrough(c, s, k, junk, careful);
    var a, b := [Client(AskGet(k)), PollDequeue(1), PollProcess, EngineDequeue(1)],
        [EngineProcess(0, []), Complete(0, true, junk)];
    Then(c, s, a, GetAtEngine(s, k), b, ReadCompleted(c, s, k), careful);
    assert a + b == ReadSteps(k, junk);
  }

  // ---- To the answer ----

  /** The request is in the finalizer's hands. */
  function InHand(s: State, id: Id): (s': State) {
    s.(pipe := s.pipe.(finRing := [], finBatch := [id]))
  }

  /** Nothing is under way. */
  predicate Resting(s: State) {
    Quiet(s.pipe) && s.pipe.finRing == [] && s.pipe.finBatch == [] && s.phase.Idle?
  }

  /** Reads and removals are finalized in one step. */
  lemma FinalizeLeads(c: Config, s: State, id: Id, careful: bool)
    requires s.pipe.finRing == [id] && s.pipe.finBatch == [] && Known(s, id) && s.rqsts[id].op != UPDATE
    requires s.rqsts[id].op == GET && s.rqsts[id].result ==> s.rqsts[id].size <= |s.rqsts[id].buff|
    ensures Leads(c, s, [FinDequeue(1), FinProcess], FinOne(c, InHand(s, id)), careful)
  {
    var s1 := InHand(s, id);
    assert [id][1..] == [];
    FinDequeued(c, s, id, careful);
    OneStep(c, s1, FinProcess, FinOne(c, s1), careful);
    Then(c, s, [FinDequeue(1)], s1, [FinProcess], FinOne(c, s1), careful);
    assert [FinDequeue(1)] + [FinProcess] == [FinDequeue(1), FinProcess];
  }

  /** What is on the device for k is what is stored. */
  predicate DeviceHolds(c: Config, s: State, k: Key)
    requires OnDevice(c, s, k)
  {
    var e := c.extent(s.index[k].ptr.dev.lba, s.index[k].size);
    s.index[k].size <= e.length && s.disk[e.start..e.start + s.index[k].size] == s.stored[k]
  }

  predicate DeliversAll(r: Rqst) {
    r.op == GET && r.result && r.size <= |r.buff|
  }

  lemma ReadWaits(c: Config, s: State, k: Key)
    requires OnDevice(c, s, k) && Resting(s) && c.ring > 0 && DeviceHolds(c, s, k)
    ensures var u := ReadCompleted(c, s, k);
            && u.pipe.finRing == [s.next] && u.pipe.finBatch == [] && Known(u, s.next)
            && DeliversAll(u.rqsts[s.next]) && u.rqsts[s.next].buff[..u.rqsts[s.next].size] == s.stored[k]
  {
    var e, r := c.extent(s.index[k].ptr.dev.lba, s.index[k].size), ReadCompleted(c, s, k).rqsts[s.next];
    assert r.buff[..r.size] == s.disk[e.start..e.start + r.size];
  }

  lemma ReadAnswer(c: Config, s: State, k: Key)
    requires OnDevice(c, s, k) && Resting(s) && c.ring > 0 && DeviceHolds(c, s, k)
    ensures Known(ReadCompleted(c, s, k), s.next) && DeliversAll(ReadCompleted(c, s, k).rqsts[s.next])
    ensures var t := FinOne(c, InHand(ReadCompleted(c, s, k), s.next));
            && t.answers == s.answers[s.next := (OK, s.stored[k])] && t.calls == s.calls[s.next := 1]
            && Resting(t) && SameMemory(s, t) && t.disk == s.disk && t.ioBufsInUse == s.ioBufsInUse
  {
    ReadWaits(c, s, k);
    assert [s.next][1..] == [];
    assert FinAnswer(c, InHand(ReadCompleted(c, s, k), s.next)) == (OK, s.stored[k]);
  }

  /** From every state of rest a read of a key on the device ends with an answer, and that is
      what is stored under the key; nothing else changes. */
  lemma GetIsAnswered(c: Config, s: State, k: Key, junk: Bytes, careful: bool) returns (t: State)
    requires OnDevice(c, s, k) && Resting(s) && DeviceHolds(c, s, k) && c.ring > 0 && s.ioBufsInUse < c.maxIoBufs
    requires |junk| == c.extent(s.index[k].ptr.dev.lba, s.index[k].size).length
             && (careful ==> CallCareful(s, AskGet(k)))
    ensures Leads(c, s, ReadSteps(k, junk) + [FinDequeue(1), FinProcess], t, careful)
    ensures t.answers == s.answers[s.next := (OK, s.stored[k])] && t.calls == s.calls[s.next := 1]
    ensures Resting(t) && SameMemory(s, t) && t.disk == s.disk && t.ioBufsInUse == s.ioBufsInUse
  {
    var u := ReadCompleted(c, s, k);
    GetGoesThrough(c, s, k, junk, careful);
    ReadWaits(c, s, k);
    ReadAnswer(c, s, k);
    FinalizeLeads(c, u, s.next, careful);
    t := FinOne(c, InHand(u, s.next));
    Then(c, s, ReadSteps(k, junk), u, [FinDequeue(1), FinProcess], t, careful);
  }

  // ---- A whole removal from the device ----

  function RemovalRqst(k: Key, result: bool): (r: Rqst) {
    Rqst(REMOVE, k, 0, 0, 0, [], result)
  }

  /** The removal waits for the finalizer. */
  function RemovalHandedOn(s: State, k: Key): (s': State)
    requires k in s.stored
  {
    var id := s.next;
    s.(next := id + 1, rqsts := s.rqsts[id := RemovalRqst(k, true)], calls := s.calls[id := 0],
       returned := s.returned[id := 0], wanted := s.wanted[id := s.stored[k]],
       pipe := s.pipe.(finRing := [id]))
  }

  function RemovalAtEngine(s: State, k: Key): (s': State)
    requires k in s.stored
  {
    var id := s.next;
    s.(next := id + 1, rqsts := s.rqsts[id := RemovalRqst(k, false)], calls := s.calls[id := 0],
       returned := s.returned[id := 0], wanted := s.wanted[id := s.stored[k]],
       pipe := s.pipe.(engineBatch := [id]))
  }

  lemma RemovalAtEngineIs(s: State, k: Key)
    requires k in s.stored && Quiet(s.pipe)
    ensures var s1 := Submit(s, REMOVE, k, 0, 0);
            && s1.pipe.pollRing == [s.next] && s1.rqsts[s.next] == RemovalRqst(k, false)
            && AtEngine(s1, s.next) == RemovalAtEngine(s, k)
  {
    var s1 := Submit(s, REMOVE, k, 0, 0);
    assert [s.next][1..] == [];
    assert AtEngine(s1, s.next).rqsts == RemovalAtEngine(s, k).rqsts;
  }

  lemma RemovalReachesEngine(c: Config, s: State, k: Key, careful: bool)
    requires OnDevice(c, s, k) && Quiet(s.pipe) && c.ring > 0 && s.ioBufsInUse < c.maxIoBufs
    requires careful ==> CallCareful(s, AskRemove(k))
    ensures Leads(c, s, [Client(AskRemove(k)), PollDequeue(1), PollProcess, EngineDequeue(1)], RemovalAtEngine(s, k),
                  careful)
  {
    var id, s1 := s.next, Submit(s, REMOVE, k, 0, 0);
    OneStep(c, s, Client(AskRemove(k)), s1, careful);
    RemovalAtEngineIs(s, k);
    ReachesEngine(c, s1, id, careful);
    Then(c, s, [Client(AskRemove(k))], s1, [PollDequeue(1), PollProcess, EngineDequeue(1)], RemovalAtEngine(s, k),
         careful);
    assert [Client(AskRemove(k))] + [PollDequeue(1), PollProcess, EngineDequeue(1)] ==
           [Client(AskRemove(k)), PollDequeue(1), PollProcess, EngineDequeue(1)];
  }

  lemma RemovalHandedOnIs(c: Config, s: State, k: Key)
    requires k in s.stored && Resting(s) && c.ring > 0
    ensures EngineOne(c, RemovalAtEngine(s, k), 0, []) == RemovalHandedOn(s, k)
  {
    var u := RemovalAtEngine(s, k);
    assert [s.next][1..] == [];
    assert EngineEffect(u, 0, []).rqsts == RemovalHandedOn(s, k).rqsts;
    assert EngineEffect(u, 0, []).ioBufsInUse == s.ioBufsInUse;
  }

  lemma RemovalPasses(c: Config, s: State, k: Key, careful: bool)
    requires k in s.stored && Resting(s) && c.ring > 0
    ensures Leads(c, RemovalAtEngine(s, k), [EngineProcess(0, [])], RemovalHandedOn(s, k), careful)
  {
    RemovalHandedOnIs(c, s, k);
    OneStep(c, RemovalAtEngine(s, k), EngineProcess(0, []), RemovalHandedOn(s, k), careful);
  }

  lemma RemovalAnswer(c: Config, s: State, k: Key)
    requires k in s.stored && Resting(s)
    ensures var t := FinOne(c, InHand(RemovalHandedOn(s, k), s.next));
            && t.answers == s.answers[s.next := (OK, [])] && t.calls == s.calls[s.next := 1]
            && t.stored == s.stored - {k} && t.index == Remove(s.index, k).0
            && Resting(t) && t.heap == s.heap && t.disk == s.disk && t.ioBufsInUse == s.ioBufsInUse
  {
    assert [s.next][1..] == [];
    assert FinAnswer(c, InHand(RemovalHandedOn(s, k), s.next)) == (OK, []);
  }

  ghost function RemovalSteps(k: Key): (steps: seq<Step>) {
    [Client(AskRemove(k)), PollDequeue(1), PollProcess, EngineDequeue(1), EngineProcess(0, [])]
  }

  lemma RemovalGoesThrough(c: Config, s: State, k: Key, careful: bool)
    requires OnDevice(c, s, k) && Resting(s) && c.ring > 0 && s.ioBufsInUse < c.maxIoBufs
    requires careful ==> CallCareful(s, AskRemove(k))
    ensures Leads(c, s, RemovalSteps(k), RemovalHandedOn(s, k), careful)
  {
    RemovalReachesEngine(c, s, k, careful);
    RemovalPasses(c, s, k, careful);
    var a, b := [Client(AskRemove(k)), PollDequeue(1), PollProcess, EngineDequeue(1)], [EngineProcess(0, [])];
    Then(c, s, a, RemovalAtEngine(s, k), b, RemovalHandedOn(s, k), careful);
    assert a + b == RemovalSteps(k);
  }

  lemma OneKeyHidden(index: Index, k: Key)
    ensures Get(Remove(index, k).0, k) == KeyNotFound
    ensures forall x :: x != k ==> Get(Remove(index, k).0, x) == Get(index, x)
  {
  }

  /** From every state of rest a removal of a key on the device ends with the key gone, no
      other changed, and the answer OK. */
  lemma RemoveIsAnswered(c: Config, s: State, k: Key, careful: bool) returns (t: State)
    requires OnDevice(c, s, k) && Resting(s) && c.ring > 0 && s.ioBufsInUse < c.maxIoBufs
    requires careful ==> CallCareful(s, AskRemove(k))
    ensures Leads(c, s, RemovalSteps(k) + [FinDequeue(1), FinProcess], t, careful)
    ensures t.answers == s.answers[s.next := (OK, [])] && t.calls == s.calls[s.next := 1]
    ensures t.stored == s.stored - {k} && Get(t.index, k) == KeyNotFound
    ensures forall x :: x != k ==> Get(t.index, x) == Get(s.index, x)
    ensures Resting(t) && t.heap == s.heap && t.disk == s.disk && t.ioBufsInUse == s.ioBufsInUse
  {
    var v := RemovalHandedOn(s, k);
    RemovalGoesThrough(c, s, k, careful);
    FinalizeLeads(c, v, s.next, careful);
    RemovalAnswer(c, s, k);
    OneKeyHidden(s.index, k);
    t := FinOne(c, InHand(v, s.next));
    Then(c, s, RemovalSteps(k), v, [FinDequeue(1), FinProcess], t, careful);
  }

  // ---- Publishing ----

  /** The finalizer published what was written. */
  function Published(c: Config, s: State, id: Id): (s': State)
    requires Known(s, id)
  {
    var r := s.rqsts[id];
    Finish(s.(pipe := s.pipe.(finRing := [], finBatch := [])), id, OK, []).(
      index := Publish(s.index, r.key, DeviceAddr(r.lba, c.busAddr)).0, heap := s.heap - {r.value})
  }

  const PUBLISHING: seq<Step> := [FinDequeue(1), FinCancel, FinPoint(true), FinProcess]

  /** An offload that was written waits for the finalizer, which is idle. */
  predicate AwaitsPublishing(s: State, id: Id) {
    && s.pipe.finRing == [id] && s.pipe.finBatch == [] && s.phase.Idle? && Known(s, id)
    && s.rqsts[id].op == UPDATE && s.rqsts[id].result && s.rqsts[id].key in s.index
  }

  lemma CancelLeads(c: Config, s: State, id: Id, careful: bool)
    requires AwaitsPublishing(s, id)
    ensures Leads(c, s, [FinDequeue(1), FinCancel], FinCancelled(InHand(s, id)), careful)
  {
    var s1 := InHand(s, id);
    assert [id][1..] == [];
    FinDequeued(c, s, id, careful);
    OneStep(c, s1, FinCancel, FinCancelled(s1), careful);
    Then(c, s, [FinDequeue(1)], s1, [FinCancel], FinCancelled(s1), careful);
    assert [FinDequeue(1)] + [FinCancel] == [FinDequeue(1), FinCancel];
  }

  lemma PointLeads(c: Config, s: State, id: Id, careful: bool)
    requires AwaitsPublishing(s, id)
    ensures var s2 := FinCancelled(InHand(s, id));
            Leads(c, s2, [FinPoint(true), FinProcess], FinOne(c, FinPointed(c, s2, true)), careful)
  {
    var s2 := FinCancelled(InHand(s, id));
    var s3 := FinPointed(c, s2, true);
    OneStep(c, s2, FinPoint(true), s3, careful);
    ProcessLeads(c, s3, id, careful);
    Then(c, s2, [FinPoint(true)], s3, [FinProcess], FinOne(c, s3), careful);
    assert [FinPoint(true)] + [FinProcess] == [FinPoint(true), FinProcess];
  }

  lemma ProcessLeads(c: Config, s: State, id: Id, careful: bool)
    requires s.pipe.finBatch == [id] && Known(s, id) && s.rqsts[id].op == UPDATE && s.phase.Pointed?
    requires s.rqsts[id].key in s.index && s.index[s.rqsts[id].key].ptr.Device?
    ensures Leads(c, s, [FinProcess], FinOne(c, s), careful)
  {
    OneStep(c, s, FinProcess, FinOne(c, s), careful);
  }

  /** There is no memory for the device address. */
  lemma PointFails(c: Config, s: State, id: Id) returns (u: State)
    requires AwaitsPublishing(s, id)
    ensures Leads(c, s, [FinDequeue(1), FinCancel] + [FinPoint(false)], u, false)
    ensures Possible(c, u, FinProcess) && !Defined(c, u, FinProcess)
  {
    var s2 := FinCancelled(InHand(s, id));
    CancelLeads(c, s, id, false);
    u := FinPointed(c, s2, false);
    OneStep(c, s2, FinPoint(false), u, false);
    Then(c, s, [FinDequeue(1), FinCancel], s2, [FinPoint(false)], u, false);
  }

  lemma PublishedIs(c: Config, s: State, id: Id)
    requires AwaitsPublishing(s, id)
    ensures FinOne(c, FinPointed(c, FinCancelled(InHand(s, id)), true)) == Published(c, s, id)
  {
    var s3 := FinPointed(c, FinCancelled(InHand(s, id)), true);
    var u, v, k := FinOne(c, s3), Published(c, s, id), s.rqsts[id].key;
    assert [id][1..] == [];
    assert u.index[k] == v.index[k];
    assert u.index == v.index;
    assert FinAnswer(c, s3) == (OK, []);
    assert u.calls == v.calls && u.returned == v.returned && u.answers == v.answers && u.pipe == v.pipe;
  }

  lemma PublishGoesThrough(c: Config, s: State, id: Id, careful: bool)
    requires AwaitsPublishing(s, id)
    ensures Leads(c, s, PUBLISHING, Published(c, s, id), careful)
  {
    var s2 := FinCancelled(InHand(s, id));
    CancelLeads(c, s, id, careful);
    PointLeads(c, s, id, careful);
    PublishedIs(c, s, id);
    Then(c, s, [FinDequeue(1), FinCancel], s2, [FinPoint(true), FinProcess], Published(c, s, id), careful);
    assert [FinDequeue(1), FinCancel] + [FinPoint(true), FinProcess] == PUBLISHING;
  }

  // ---- A whole put ----

  function Zeros(n: nat): (b: Bytes) {
    seq(n, i => 0)
  }

  /** Client w reserves, writes and puts, with room in the ready queue. */
  function PutSteps(w: nat, k: Key, addr: nat, v: Bytes): (steps: seq<Step>) {
    [Client(Reserve(w, k, |v|, Granted(addr), Zeros(|v|))), Client(Fill(w, v)), Client(PutReserved(w, true))]
  }

  /** k is stored in memory at addr. */
  function WithKey(s: State, k: Key, addr: nat, v: Bytes): (s': State) {
    s.(index := s.index[k := Wrapper(PMEM, Memory(addr), |v|, PMEM)], heap := s.heap[addr := v],
       stored := s.stored[k := v])
  }

  lemma ReserveLeads(c: Config, s: State, w: nat, k: Key, addr: nat, size: nat, careful: bool)
    requires k !in s.index && addr !in s.heap && w !in s.clients && (careful ==> NoneHolds(s.clients, k))
    ensures Leads(c, s, [Client(Reserve(w, k, size, Granted(addr), Zeros(size)))],
                  s.(index := s.index[k := Wrapper(EMPTY, Memory(addr), size, EMPTY)],
                     heap := s.heap[addr := Zeros(size)],
                     clients := s.clients[w := Reserving(k, addr, Zeros(size))]), careful)
  {
    OneStep(c, s, Client(Reserve(w, k, size, Granted(addr), Zeros(size))),
            HasReserved(s, w, k, size, Granted(addr), Zeros(size)), careful);
  }

  lemma FillLeads(c: Config, s: State, w: nat, v: Bytes, careful: bool)
    requires w in s.clients && s.clients[w].Reserving? && |v| == |s.clients[w].bytes| && s.clients[w].addr in s.heap
    ensures Leads(c, s, [Client(Fill(w, v))], HasFilled(s, w, v), careful)
  {
    OneStep(c, s, Client(Fill(w, v)), HasFilled(s, w, v), careful);
  }

  lemma PutReservedLeads(c: Config, s: State, w: nat, room: bool, careful: bool)
    requires w in s.clients && s.clients[w].Reserving?
    ensures Leads(c, s, [Client(PutReserved(w, room))], HasPut(s, w, room), careful)
  {
    OneStep(c, s, Client(PutReserved(w, room)), HasPut(s, w, room), careful);
  }

  lemma WithKeyIs(s: State, w: nat, k: Key, addr: nat, v: Bytes)
    requires k !in s.index && w !in s.clients
    ensures var s1 := s.(index := s.index[k := Wrapper(EMPTY, Memory(addr), |v|, EMPTY)],
                         heap := s.heap[addr := Zeros(|v|)], clients := s.clients[w := Reserving(k, addr, Zeros(|v|))]);
            HasPut(HasFilled(s1, w, v), w, true) == WithKey(s, k, addr, v)
  {
    var s1 := s.(index := s.index[k := Wrapper(EMPTY, Memory(addr), |v|, EMPTY)],
                 heap := s.heap[addr := Zeros(|v|)], clients := s.clients[w := Reserving(k, addr, Zeros(|v|))]);
    var s2 := HasFilled(s1, w, v);
    assert s2.clients[w] == Reserving(k, addr, v) && s2.heap == s.heap[addr := v];
    assert AfterPut(s2.clients, w, k, true) == s.clients;
    assert Put(s2.index, k).0 == s.index[k := Wrapper(PMEM, Memory(addr), |v|, PMEM)];
  }

  /** Putting a key that is not there. */
  lemma PutLeads(c: Config, s: State, w: nat, k: Key, addr: nat, v: Bytes, careful: bool)
    requires k !in s.index && addr !in s.heap && w !in s.clients && (careful ==> NoneHolds(s.clients, k))
    ensures Leads(c, s, PutSteps(w, k, addr, v), WithKey(s, k, addr, v), careful)
  {
    var s1 := s.(index := s.index[k := Wrapper(EMPTY, Memory(addr), |v|, EMPTY)],
                 heap := s.heap[addr := Zeros(|v|)], clients := s.clients[w := Reserving(k, addr, Zeros(|v|))]);
    ReserveLeads(c, s, w, k, addr, |v|, careful);
    FillLeads(c, s1, w, v, careful);
    PutReservedLeads(c, HasFilled(s1, w, v), w, true, careful);
    WithKeyIs(s, w, k, addr, v);
    var a, b, d := [PutSteps(w, k, addr, v)[0]], [Client(Fill(w, v))], [Client(PutReserved(w, true))];
    Then(c, s, a, s1, b, HasFilled(s1, w, v), careful);
    Then(c, s, a + b, HasFilled(s1, w, v), d, WithKey(s, k, addr, v), careful);
    assert a + b + d == PutSteps(w, k, addr, v);
  }

  /** The memory of a value that is being published goes to another key. */
  lemma ReuseLeads(c: Config, s: State, id: Id, w: nat, k: Key, addr: nat, v: Bytes, careful: bool)
    requires AwaitsPublishing(s, id) && s.rqsts[id].value == addr && k !in s.index && w !in s.clients
    requires careful ==> NoneHolds(s.clients, k)
    ensures Leads(c, s, [FinDequeue(1), FinCancel] + PutSteps(w, k, addr, v),
                  WithKey(FinCancelled(InHand(s, id)), k, addr, v), careful)
  {
    var u := FinCancelled(InHand(s, id));
    CancelLeads(c, s, id, careful);
    PutLeads(c, u, w, k, addr, v, careful);
    Then(c, s, [FinDequeue(1), FinCancel], u, PutSteps(w, k, addr, v), WithKey(u, k, addr, v), careful);
  }

  // ---- A whole removal from memory ----

  /** k is taken out, and its memory given back. */
  function WithoutKey(s: State, k: Key): (s': State)
    requires k in s.index && s.index[k].ptr.Memory?
  {
    s.(index := Remove(s.index, k).0, heap := s.heap - {s.index[k].ptr.addr}, stored := s.stored - {k})
  }

  lemma WithoutKeyIs(s: State, w: nat, k: Key)
    requires w !in s.clients && k in s.index && ReservedNotPublished(s.index[k]) && s.index[k].ptr.Memory?
    ensures var s2 := HasUnlinked(s.(clients := s.clients[w := Removing(k)]), w);
            && w in s2.clients && s2.clients[w] == Cancelling(k) && k in s2.index && s2.index[k].ptr.Memory?
            && HasCancelled(s2, w) == WithoutKey(s, k)
  {
    var s2 := HasUnlinked(s.(clients := s.clients[w := Removing(k)]), w);
    assert HasCancelled(s2, w).clients == s.clients;
  }

  lemma TakeOutLeads(c: Config, s: State, w: nat, k: Key, careful: bool)
    requires w !in s.clients && k in s.index && ReservedNotPublished(s.index[k]) && s.index[k].ptr.Memory?
    ensures Leads(c, s.(clients := s.clients[w := Removing(k)]), [Client(Unlink(w)), Client(Cancel(w))],
                  WithoutKey(s, k), careful)
  {
    var s1 := s.(clients := s.clients[w := Removing(k)]);
    var s2 := HasUnlinked(s1, w);
    OneStep(c, s1, Client(Unlink(w)), s2, careful);
    WithoutKeyIs(s, w, k);
    OneStep(c, s2, Client(Cancel(w)), WithoutKey(s, k), careful);
    Then(c, s1, [Client(Unlink(w))], s2, [Client(Cancel(w))], WithoutKey(s, k), careful);
    assert [Client(Unlink(w))] + [Client(Cancel(w))] == [Client(Unlink(w)), Client(Cancel(w))];
  }

  /** A second Put of a key in memory finds no room in the ready queue, and takes it out. */
  lemma RollBackLeads(c: Config, s: State, w: nat, k: Key, careful: bool)
    requires w !in s.clients && k in s.index && s.index[k].ptr.Memory?
    requires s.index[k].location == PMEM && s.index[k].locationVolatile == PMEM
    requires careful ==> k in s.stored && NothingFor(s, k)
    ensures Leads(c, s, [Client(PutAgain(w, k, false)), Client(Unlink(w)), Client(Cancel(w))],
                  WithoutKey(s, k), careful)
  {
    var s1 := s.(clients := s.clients[w := Removing(k)]);
    assert Put(s.index, k).0 == s.index;
    OneStep(c, s, Client(PutAgain(w, k, false)), s1, careful);
    TakeOutLeads(c, s, w, k, careful);
    Then(c, s, [Client(PutAgain(w, k, false))], s1, [Client(Unlink(w)), Client(Cancel(w))], WithoutKey(s, k), careful);
    assert [Client(PutAgain(w, k, false))] + [Client(Unlink(w)), Client(Cancel(w))] ==
           [Client(PutAgain(w, k, false)), Client(Unlink(w)), Client(Cancel(w))];
  }

  lemma RemovalLeads(c: Config, s: State, w: nat, k: Key, careful: bool)
    requires w !in s.clients && k in s.index && ReservedNotPublished(s.index[k]) && s.index[k].ptr.Memory?
    requires careful ==> NothingFor(s, k)
    ensures Leads(c, s, [Client(RemoveFromMemory(w, k)), Client(Unlink(w)), Client(Cancel(w))],
                  WithoutKey(s, k), careful)
  {
    var s1 := s.(clients := s.clients[w := Removing(k)]);
    OneStep(c, s, Client(RemoveFromMemory(w, k)), s1, careful);
    TakeOutLeads(c, s, w, k, careful);
    Then(c, s, [Client(RemoveFromMemory(w, k))], s1, [Client(Unlink(w)), Client(Cancel(w))], WithoutKey(s, k), careful);
    assert [Client(RemoveFromMemory(w, k))] + [Client(Unlink(w)), Client(Cancel(w))] ==
           [Client(RemoveFromMemory(w, k)), Client(Unlink(w)), Client(Cancel(w))];
  }
}
