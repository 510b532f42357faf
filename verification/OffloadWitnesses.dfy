/** Runs from the initial state that show what the pipeline does not promise, and what goes
    wrong when clients are not careful. */
module OffloadWitnesses {
  import opened ValueIndex
  import opened Extents
  import opened OffloadState
  import opened OffloadRuns
  import O = OffloadState

  const K1: Key := [1, 0, 0, 0, 0, 0, 0, 0]
  const K2: Key := [2, 0, 0, 0, 0, 0, 0, 0]
  const BLANK: Bytes := [0, 0]

  /** A device of two bytes, where values are one byte each. */
  ghost function Small(ring: nat): (c: Config) {
    Config(2, ring, 0, (lba: nat, size: nat) => Extent(lba, size))
  }

  /** One key in memory at address 1, two keys in memory. */
  ghost function OneKey(): (s: State) {
    Initial(BLANK).(index := map[K1 := Wrapper(PMEM, Memory(1), 1, PMEM)], heap := map[1 := [1]],
                    stored := map[K1 := [1]])
  }

  ghost function TwoKeys(): (s: State) {
    var one := OneKey();
    one.(index := one.index[K2 := Wrapper(PMEM, Memory(2), 1, PMEM)], heap := one.heap[2 := [2]],
         stored := one.stored[K2 := [2]])
  }

  const PUT_K1: seq<Step> := PutSteps(0, K1, 1, [1])
  const PUT_K2: seq<Step> := PutSteps(0, K2, 2, [2])

  lemma OneKeyPut(c: Config, careful: bool)
    ensures Leads(c, Initial(BLANK), PUT_K1, OneKey(), careful)
  {
    var s := Initial(BLANK);
    PutLeads(c, s, 0, K1, 1, [1], careful);
    assert s.index[K1 := Wrapper(PMEM, Memory(1), 1, PMEM)] == OneKey().index;
    assert s.heap[1 := [1]] == OneKey().heap && s.stored[K1 := [1]] == OneKey().stored;
  }

  lemma TwoKeysPut(c: Config, careful: bool)
    ensures Leads(c, Initial(BLANK), PUT_K1 + PUT_K2, TwoKeys(), careful)
  {
    OneKeyPut(c, careful);
    PutLeads(c, OneKey(), 0, K2, 2, [2], careful);
    Then(c, Initial(BLANK), PUT_K1, OneKey(), PUT_K2, TwoKeys(), careful);
  }

  // ---- A request is lost ----

  ghost function FirstWritten(): (s: State)
    requires Writable(Small(1), TwoKeys(), K1, 0, [])
  {
    Offloaded(Small(1), TwoKeys(), K1, 0, [])
  }

  lemma FirstIsWritable()
    ensures Writable(Small(1), TwoKeys(), K1, 0, [])
  {
    var s := TwoKeys();
    assert forall o: Owner :: !Live(s.index, s.stored, s.rqsts, s.pipe, o);
  }

  lemma SecondIsWritable()
    ensures Writable(Small(1), TwoKeys(), K1, 0, []) && Writable(Small(1), FirstWritten(), K2, 1, [])
  {
    FirstIsWritable();
    var c, s := Small(1), FirstWritten();
    forall o: Owner | Live(s.index, s.stored, s.rqsts, s.pipe, o)
      ensures Disjoint(c.extent(1, 1), ExtentOf(c, s.index, s.rqsts, o))
    {
      assert o == OfRqst(0);
    }
  }

  /** Two offloads complete before the finalizer, whose ring holds one, comes round: the
      second is lost. */
  lemma LosingRun() returns (states: seq<State>, steps: seq<Step>)
    ensures O.Run(Small(1), BLANK, states, steps) && states[|steps|].pipe.lost == [1]
  {
    var c, s := Small(1), TwoKeys();
    TwoKeysPut(c, true);
    SecondIsWritable();
    OffloadGoesThrough(c, s, K1, 0, [], [9], true);
    var t := FirstWritten();
    OffloadGoesThrough(c, t, K2, 1, [], [9], true);
    var u := Offloaded(c, t, K2, 1, []);
    var puts := PUT_K1 + PUT_K2;
    Then(c, Initial(BLANK), puts, s, OffloadSteps(K1, 0, [], [9]), t, true);
    Then(c, Initial(BLANK), puts + OffloadSteps(K1, 0, [], [9]), t, OffloadSteps(K2, 1, [], [9]), u, true);
    steps := puts + OffloadSteps(K1, 0, [], [9]) + OffloadSteps(K2, 1, [], [9]);
    states := CarefulIsRun(c, BLANK, steps, u);
  }

  // ---- Careless clients ----

  lemma OnlyIsWritable(ring: nat)
    ensures Writable(Small(ring), OneKey(), K1, 0, [])
  {
    var s := OneKey();
    assert forall o: Owner :: !Live(s.index, s.stored, s.rqsts, s.pipe, o);
  }

  /** K1 put and offloaded, as far as the finalizer. */
  ghost const UNTIL_OFFLOADED: seq<Step> := PUT_K1 + OffloadSteps(K1, 0, [], [9])

  lemma OffloadedLeads(careful: bool)
    ensures Writable(Small(1), OneKey(), K1, 0, [])
    ensures Leads(Small(1), Initial(BLANK), UNTIL_OFFLOADED, Offloaded(Small(1), OneKey(), K1, 0, []), careful)
    ensures AwaitsPublishing(Offloaded(Small(1), OneKey(), K1, 0, []), 0)
  {
    var c := Small(1);
    OneKeyPut(c, careful);
    OnlyIsWritable(1);
    OffloadGoesThrough(c, OneKey(), K1, 0, [], [9], careful);
    Then(c, Initial(BLANK), PUT_K1, OneKey(), OffloadSteps(K1, 0, [], [9]), Offloaded(c, OneKey(), K1, 0, []), careful);
  }

  ghost function RemovedMeanwhile(): (s: State)
    requires Writable(Small(1), OneKey(), K1, 0, [])
  {
    WithoutKey(Offloaded(Small(1), OneKey(), K1, 0, []), K1)
  }

  const REMOVE_K1: seq<Step> := [Client(RemoveFromMemory(0, K1)), Client(Unlink(0)), Client(Cancel(0))]

  ghost const UNTIL_REMOVED: seq<Step> := UNTIL_OFFLOADED + REMOVE_K1

  lemma RemovedLeads()
    ensures Writable(Small(1), OneKey(), K1, 0, [])
    ensures Leads(Small(1), Initial(BLANK), UNTIL_REMOVED, RemovedMeanwhile(), false)
  {
    var c := Small(1);
    OffloadedLeads(false);
    var t := Offloaded(c, OneKey(), K1, 0, []);
    RemovalLeads(c, t, 0, K1, false);
    Then(c, Initial(BLANK), UNTIL_OFFLOADED, t, REMOVE_K1, RemovedMeanwhile(), false);
  }

  /** A key removed while its offload is under way is there again once it is finalized. */
  lemma RemovedKeyComesBackRun() returns (states: seq<State>, steps: seq<Step>)
    ensures CarelessRun(Small(1), BLANK, states, steps)
    ensures var s := states[|steps|]; K1 !in s.stored && Get(s.index, K1).Found? && Get(s.index, K1).location == DISK
  {
    var c := Small(1);
    RemovedLeads();
    var u := RemovedMeanwhile();
    PublishGoesThrough(c, u, 0, false);
    steps := UNTIL_REMOVED + PUBLISHING;
    Then(c, Initial(BLANK), UNTIL_REMOVED, u, PUBLISHING, Published(c, u, 0), false);
    states := CarelessIsRun(c, BLANK, steps, Published(c, u, 0));
  }

  /** Both offloads of K1 are in the poller's ring. */
  ghost function AskedTwice(): (s: State) {
    Submit(Submit(OneKey(), UPDATE, K1, 1, 1), UPDATE, K1, 1, 1)
  }

  lemma AskedTwiceLeads(c: Config)
    requires c.ring >= 2
    ensures Leads(c, OneKey(), [Client(AskUpdate(K1)), Client(AskUpdate(K1))], AskedTwice(), false)
  {
    Requested(c, OneKey(), K1, false);
    var s := Submit(OneKey(), UPDATE, K1, 1, 1);
    Requested(c, s, K1, false);
    Then(c, OneKey(), [Client(AskUpdate(K1))], s, [Client(AskUpdate(K1))], AskedTwice(), false);
    assert [Client(AskUpdate(K1))] + [Client(AskUpdate(K1))] == [Client(AskUpdate(K1)), Client(AskUpdate(K1))];
  }

  /** The first of them written and waiting for the finalizer. */
  ghost function FirstOfTwo(): (s: State) {
    AskedTwice().(pipe := Pipe([1], [], [], [], [], [0], [], []), disk := [1, 0],
                  rqsts := AskedTwice().rqsts[0 := Rqst(UPDATE, K1, 1, 1, 0, [1], true)])
  }

  lemma FirstOfTwoLeads(c: Config)
    requires c == Small(2)
    ensures Leads(c, AskedTwice(), [PollDequeue(1), PollProcess, EngineDequeue(1), EngineProcess(0, []),
                                    Complete(0, true, [9])],
                  FirstOfTwo(), false)
  {
    var s := AskedTwice();
    assert s.pipe.pollRing == [0, 1];
    ReachesEngine(c, s, 0, false);
    var a := AtEngine(s, 0);
    FirstWriteLeads(c, a);
    var x, y := [PollDequeue(1), PollProcess, EngineDequeue(1)], [EngineProcess(0, []), Complete(0, true, [9])];
    Then(c, s, x, a, y, FirstOfTwo(), false);
    assert x + y == [PollDequeue(1), PollProcess, EngineDequeue(1), EngineProcess(0, []), Complete(0, true, [9])];
  }

  lemma FirstIsTransferable(c: Config, a: State)
    requires c == Small(2) && a == AtEngine(AskedTwice(), 0)
    ensures Transferable(c, a, 0, 0, []) && a.rqsts[0] == Rqst(UPDATE, K1, 1, 1, 0, [], false) && a.ioBufsInUse == 0
  {
    assert forall o: Owner :: !Live(a.index, a.stored, a.rqsts, a.pipe, o);
  }

  lemma FirstWriteLeads(c: Config, a: State)
    requires c == Small(2) && a == AtEngine(AskedTwice(), 0)
    ensures Leads(c, a, [EngineProcess(0, []), Complete(0, true, [9])], FirstOfTwo(), false)
  {
    FirstIsTransferable(c, a);
    EngineProcessed(c, a, 0, 0, [], false);
    var b := Submitted(a, 0, 0, []);
    TransferCompleted(c, b, 0, [9], false);
    FirstOfTwoIs(c, b);
    Then(c, a, [EngineProcess(0, [])], b, [Complete(0, true, [9])], FirstOfTwo(), false);
    assert [EngineProcess(0, [])] + [Complete(0, true, [9])] == [EngineProcess(0, []), Complete(0, true, [9])];
  }

  lemma FirstOfTwoIs(c: Config, b: State)
    requires c == Small(2)
    requires b == AskedTwice().(pipe := Pipe([1], [], [], [], [0], [], [], []), ioBufsInUse := 1, rqsts := b.rqsts)
    requires 0 in b.rqsts && b.rqsts[0] == Rqst(UPDATE, K1, 1, 1, 0, [1], false) && 1 in b.rqsts
    requires b.rqsts.Keys == {0, 1} && b.rqsts[1] == AskedTwice().rqsts[1]
    ensures TransferFits(c, b.disk, b.rqsts[0], [9]) && Completed(c, b, 0, [9]) == FirstOfTwo()
  {
    var t := Completed(c, b, 0, [9]);
    assert t.rqsts == FirstOfTwo().rqsts;
    assert WriteDisk(BLANK, Extent(0, 1), [1]) == [1, 0];
    assert t.pipe == FirstOfTwo().pipe;
  }

  /** Two offloads of one key: when the second reaches the engine, its memory is gone. */
  lemma SecondOffloadRun() returns (states: seq<State>, steps: seq<Step>)
    ensures CarelessRun(Small(2), BLANK, states, steps)
    ensures var s := states[|steps|];
            Possible(Small(2), s, EngineProcess(1, [])) && !Defined(Small(2), s, EngineProcess(1, []))
  {
    var c := Small(2);
    OneKeyPut(c, false);
    AskedTwiceLeads(c);
    FirstOfTwoLeads(c);
    var t := FirstOfTwo();
    PublishGoesThrough(c, t, 0, false);
    var u := Published(c, t, 0);
    ReachesEngine(c, u, 1, false);
    var v := AtEngine(u, 1);
    var p1, p2 := PUT_K1, [Client(AskUpdate(K1)), Client(AskUpdate(K1))];
    var p3 := [PollDequeue(1), PollProcess, EngineDequeue(1), EngineProcess(0, []), Complete(0, true, [9])];
    var p5 := [PollDequeue(1), PollProcess, EngineDequeue(1)];
    Then(c, Initial(BLANK), p1, OneKey(), p2, AskedTwice(), false);
    Then(c, Initial(BLANK), p1 + p2, AskedTwice(), p3, t, false);
    Then(c, Initial(BLANK), p1 + p2 + p3, t, PUBLISHING, u, false);
    Then(c, Initial(BLANK), p1 + p2 + p3 + PUBLISHING, u, p5, v, false);
    steps := p1 + p2 + p3 + PUBLISHING + p5;
    states := CarelessIsRun(c, BLANK, steps, v);
    SecondIsStuck(c, v);
  }

  lemma SecondIsStuck(c: Config, v: State)
    requires c == Small(2) && v == AtEngine(Published(c, FirstOfTwo(), 0), 1)
    ensures Possible(c, v, EngineProcess(1, [])) && !Defined(c, v, EngineProcess(1, []))
  {
    forall o: Owner | Live(v.index, v.stored, v.rqsts, v.pipe, o)
      ensures Disjoint(c.extent(1, 1), ExtentOf(c, v.index, v.rqsts, o))
    {
      assert o == OfKey(K1);
    }
  }

  /** There is no memory for the device address of a value that was written: the finalizer
      then writes through a null pointer. */
  lemma NoAddressRun() returns (states: seq<State>, steps: seq<Step>)
    ensures CarelessRun(Small(1), BLANK, states, steps)
    ensures var s := states[|steps|]; Possible(Small(1), s, FinProcess) && !Defined(Small(1), s, FinProcess)
  {
    var c := Small(1);
    OffloadedLeads(false);
    var t := Offloaded(c, OneKey(), K1, 0, []);
    var u := PointFails(c, t, 0);
    var a := [FinDequeue(1), FinCancel] + [FinPoint(false)];
    Then(c, Initial(BLANK), UNTIL_OFFLOADED, t, a, u, false);
    steps := UNTIL_OFFLOADED + a;
    states := CarelessIsRun(c, BLANK, steps, u);
  }

  // ---- A read and a write meet ----

  /** K1 is on the device, and nothing is under way. */
  ghost function Stored(): (s: State) {
    State(map[K1 := Wrapper(DISK, Device(DeviceAddr(0, 0)), 1, PMEM)], map[], [1, 0], 1,
          map[0 := Rqst(UPDATE, K1, 1, 1, 0, [1], true)], Pipe([], [], [], [], [], [], [], []), Idle, 0,
          map[0 := 1], map[0 := 1], map[0 := (OK, [])], map[], map[K1 := [1]], map[0 := [1]])
  }

  lemma StoredLeads() returns (steps: seq<Step>)
    ensures Leads(Small(1), Initial(BLANK), steps, Stored(), true)
  {
    var c := Small(1);
    OffloadedLeads(true);
    var t := Offloaded(c, OneKey(), K1, 0, []);
    PublishGoesThrough(c, t, 0, true);
    StoredIs(c, t);
    Then(c, Initial(BLANK), UNTIL_OFFLOADED, t, PUBLISHING, Stored(), true);
    steps := UNTIL_OFFLOADED + PUBLISHING;
  }

  lemma StoredIs(c: Config, t: State)
    requires c == Small(1) && Writable(c, OneKey(), K1, 0, []) && t == Offloaded(c, OneKey(), K1, 0, [])
    ensures Published(c, t, 0) == Stored()
  {
    var u, v := Published(c, t, 0), Stored();
    assert t.disk == WriteDisk(BLANK, Extent(0, 1), [1]) == [1, 0];
    assert u.rqsts[0].buff == [1];
    assert u.index == v.index && u.heap == v.heap && u.rqsts == v.rqsts;
    assert u.calls == v.calls && u.returned == v.returned && u.answers == v.answers;
    assert u.stored == v.stored && u.wanted == v.wanted && u.pipe == v.pipe;
  }

  /** A read of K1 is in the finalizer's hands, K2 is in memory. */
  ghost function ReadDone(): (s: State) {
    var s := ReadCompleted(Small(1), Stored(), K1);
    WithKey(InHand(s, 1), K2, 2, [2])
  }

  lemma ReadDoneLeads() returns (steps: seq<Step>)
    ensures Leads(Small(1), Initial(BLANK), steps, ReadDone(), true)
  {
    var c, s := Small(1), Stored();
    var a := StoredLeads();
    GetGoesThrough(c, s, K1, [9], true);
    var t := ReadCompleted(c, s, K1);
    assert t.pipe.finRing == [1] && [1][1..] == [];
    FinDequeued(c, t, 1, true);
    var u := InHand(t, 1);
    PutLeads(c, u, 0, K2, 2, [2], true);
    Then(c, Initial(BLANK), a, s, ReadSteps(K1, [9]), t, true);
    Then(c, Initial(BLANK), a + ReadSteps(K1, [9]), t, [FinDequeue(1)], u, true);
    Then(c, Initial(BLANK), a + ReadSteps(K1, [9]) + [FinDequeue(1)], u, PUT_K2, ReadDone(), true);
    steps := a + ReadSteps(K1, [9]) + [FinDequeue(1)] + PUT_K2;
  }

  /** Meanwhile the offload of K2 has come into the engine's hands. */
  ghost function Meeting(): (s: State) {
    UpdateAtEngine(ReadDone(), K2)
  }

  lemma MeetingLeads() returns (steps: seq<Step>)
    ensures Leads(Small(1), Initial(BLANK), steps, Meeting(), true)
  {
    var a := ReadDoneLeads();
    UpdateReachesEngine(Small(1), ReadDone(), K2, true);
    var b := [Client(AskUpdate(K2)), PollDequeue(1), PollProcess, EngineDequeue(1)];
    Then(Small(1), Initial(BLANK), a, ReadDone(), b, Meeting(), true);
    steps := a + b;
  }
}
