/** Clients that do not look out for each other (lib/core/KVStore.cpp, lib/dht/DhtServer.cpp):
    reserving memory for a key, writing to it and putting it are separate, and only the put
    makes the key visible, so two of them can reserve the same key. */
module OffloadRaces {
  import opened Basics
  import opened ValueIndex
  import opened OffloadState
  import opened OffloadClients
  import opened OffloadTheorems
  import opened OffloadRuns
  import Paths
  import W = OffloadWitnesses

  /** Steps that are possible and find what they need, careful or not. */
  ghost predicate Path(c: Config, states: seq<State>, steps: seq<Step>) {
    Paths.Path(OffloadRuns.Relation(c, false), states, steps)
  }

  /** The step gives the memory at a back. */
  predicate FreesMemory(s: State, step: Step, a: nat) {
    match step
    case Client(Cancel(w)) => w in s.clients && s.clients[w].k in s.index && s.index[s.clients[w].k].ptr == Memory(a)
    case FinCancel => ToPublish(s) && s.rqsts[s.pipe.finBatch[0]].value == a
    case _ => false
  }

  /** The step overwrites the pointer of k: another reservation, granted or failed, while k is
      invisible, or the publishing of an offload. */
  predicate Repoints(s: State, step: Step, k: Key) {
    match step
    case Client(Reserve(_, k', _, _, _)) => k' == k && k in s.index && s.index[k].location == EMPTY
    case FinPoint(_) => ToPublish(s) && s.rqsts[s.pipe.finBatch[0]].key == k
    case FinProcess => ToPublish(s) && s.rqsts[s.pipe.finBatch[0]].key == k
    case _ => false
  }

  predicate Disturbs(s: State, step: Step, k: Key, a: nat) {
    FreesMemory(s, step, a) || Repoints(s, step, k)
  }

  /** Who looks k up once it is visible is led to a. */
  predicate LeadsTo(s: State, k: Key, a: nat) {
    k in s.index && s.index[k].ptr == Memory(a)
  }

  // ---- One step ----

  lemma CallMemory(c: Config, s: State, call: Call, a: nat)
    requires CallPossible(c, s, call) && CallDefined(s, call) && a in s.heap
    ensures a in AfterCall(c, s, call).heap <==> !FreesMemory(s, Client(call), a)
  {
  }

  lemma MemoryStep(c: Config, s: State, step: Step, a: nat)
    requires Possible(c, s, step) && Defined(c, s, step) && a in s.heap
    ensures a in Next(c, s, step).heap <==> !FreesMemory(s, step, a)
  {
    if step.Client? { CallMemory(c, s, step.call, a); }
  }

  lemma CallPointer(c: Config, s: State, call: Call, k: Key, a: nat)
    requires CallPossible(c, s, call) && CallDefined(s, call) && a in s.heap && k in s.index
    ensures k in AfterCall(c, s, call).index
    ensures LeadsTo(AfterCall(c, s, call), k, a) <==> LeadsTo(s, k, a) && !Repoints(s, Client(call), k)
  {
    if call.Reserve? { ReservePointer(s, call.k, call.size, call.g, k, a); }
  }

  lemma ReservePointer(s: State, k': Key, size: nat, g: Grant, k: Key, a: nat)
    requires a in s.heap && k in s.index && (g.Granted? ==> g.addr !in s.heap)
    ensures var m := Alloc(s.index, k', size, g).0;
            && k in m
            && (m[k].ptr == Memory(a) <==>
                  s.index[k].ptr == Memory(a) && !(k' == k && s.index[k].location == EMPTY))
  {
  }

  lemma FinPointer(c: Config, s: State, k: Key, a: nat)
    requires s.pipe.finBatch != [] && Known(s, s.pipe.finBatch[0]) && k in s.index
    requires var r := s.rqsts[s.pipe.finBatch[0]]; r.op == GET && r.result ==> r.size <= |r.buff|
    ensures k in FinOne(c, s).index
    ensures LeadsTo(FinOne(c, s), k, a) <==> LeadsTo(s, k, a) && !Repoints(s, FinProcess, k)
  {
  }

  /** While the memory at a is reserved nobody else is granted it, so k leads there after a
      step exactly if it did before and the step left k's pointer alone. */
  lemma PointerStep(c: Config, s: State, step: Step, k: Key, a: nat)
    requires Possible(c, s, step) && Defined(c, s, step) && a in s.heap && k in s.index
    ensures k in Next(c, s, step).index
    ensures LeadsTo(Next(c, s, step), k, a) <==> LeadsTo(s, k, a) && !Repoints(s, step, k)
  {
    match step
    case Client(call) => CallPointer(c, s, call, k, a);
    case FinProcess => FinPointer(c, s, k, a);
    case _ =>
  }

  // ---- From a reservation to the put ----

  ghost predicate HeldOver(states: seq<State>, i: nat, j: nat, a: nat)
    requires i <= j < |states|
  {
    forall t :: i <= t <= j ==> a in states[t].heap
  }

  predicate DisturbsAt(states: seq<State>, steps: seq<Step>, t: nat, k: Key, a: nat)
    requires t < |steps| && t < |states|
  {
    Disturbs(states[t], steps[t], k, a)
  }

  ghost predicate UndisturbedOver(states: seq<State>, steps: seq<Step>, i: nat, j: nat, k: Key, a: nat)
    requires i <= j <= |steps| && |steps| < |states|
  {
    forall t {:trigger DisturbsAt(states, steps, t, k, a)} :: i <= t < j ==> !DisturbsAt(states, steps, t, k, a)
  }

  lemma StepOnPath(c: Config, states: seq<State>, steps: seq<Step>, i: nat, k: Key, a: nat)
    requires Path(c, states, steps) && i < |steps| && a in states[i].heap && k in states[i].index
    ensures k in states[i + 1].index && (a in states[i + 1].heap <==> !FreesMemory(states[i], steps[i], a))
    ensures LeadsTo(states[i + 1], k, a) <==> LeadsTo(states[i], k, a) && !Repoints(states[i], steps[i], k)
    ensures DisturbsAt(states, steps, i, k, a) <==>
            FreesMemory(states[i], steps[i], a) || Repoints(states[i], steps[i], k)
  {
    assert OffloadRuns.Relation(c, false)(states[i], steps[i], states[i + 1]);
    MemoryStep(c, states[i], steps[i], a);
    PointerStep(c, states[i], steps[i], k, a);
  }

  /** k leads to a at the end, and a was reserved all along, if and only if no step in between
      gave that memory back or overwrote k's pointer. */
  lemma {:induction false} StillLeadsIff(c: Config, states: seq<State>, steps: seq<Step>, i: nat, j: nat,
                                         k: Key, a: nat)
    requires Path(c, states, steps) && i <= j <= |steps| && a in states[i].heap && k in states[i].index
    ensures LeadsTo(states[j], k, a) && HeldOver(states, i, j, a) <==>
            LeadsTo(states[i], k, a) && UndisturbedOver(states, steps, i, j, k, a)
    decreases j - i
  {
    if i < j {
      StepOnPath(c, states, steps, i, k, a);
      FirstOver(states, steps, i, j, k, a);
      if a in states[i + 1].heap { StillLeadsIff(c, states, steps, i + 1, j, k, a); }
    }
  }

  lemma FirstOver(states: seq<State>, steps: seq<Step>, i: nat, j: nat, k: Key, a: nat)
    requires i < j <= |steps| && |steps| < |states|
    ensures HeldOver(states, i, j, a) <==> a in states[i].heap && HeldOver(states, i + 1, j, a)
    ensures UndisturbedOver(states, steps, i, j, k, a) <==>
            !DisturbsAt(states, steps, i, k, a) && UndisturbedOver(states, steps, i + 1, j, k, a)
  {
  }

  lemma LastOver(states: seq<State>, steps: seq<Step>, i: nat, j: nat, k: Key, a: nat)
    requires i <= j < |steps| && |steps| < |states| && !DisturbsAt(states, steps, j, k, a)
    ensures UndisturbedOver(states, steps, i, j + 1, k, a) <==> UndisturbedOver(states, steps, i, j, k, a)
  {
  }

  /** From its reservation to its put a client does nothing but write. */
  ghost predicate Puts(states: seq<State>, steps: seq<Step>, i: nat, j: nat, w: nat) {
    && i < j < |steps| && |steps| < |states|
    && steps[i].Client? && steps[i].call.Reserve? && steps[i].call.w == w
    && steps[j].Client? && steps[j].call.PutReserved? && steps[j].call.w == w
    && forall t :: i < t <= j ==> w in states[t].clients && states[t].clients[w].Reserving?
  }

  lemma CallHold(c: Config, s: State, call: Call, w: nat)
    requires CallPossible(c, s, call) && CallDefined(s, call) && w in s.clients && s.clients[w].Reserving?
    requires w in AfterCall(c, s, call).clients && AfterCall(c, s, call).clients[w].Reserving?
    ensures var h, h' := s.clients[w], AfterCall(c, s, call).clients[w];
            h'.k == h.k && h'.addr == h.addr && (!call.Fill? ==> h' == h)
  {
  }

  lemma HoldStep(c: Config, s: State, step: Step, w: nat)
    requires Possible(c, s, step) && Defined(c, s, step) && w in s.clients && s.clients[w].Reserving?
    requires w in Next(c, s, step).clients && Next(c, s, step).clients[w].Reserving?
    ensures Next(c, s, step).clients[w].k == s.clients[w].k && Next(c, s, step).clients[w].addr == s.clients[w].addr
  {
    if step.Client? { CallHold(c, s, step.call, w); }
  }

  lemma {:induction false} HoldStays(c: Config, states: seq<State>, steps: seq<Step>, i: nat, j: nat, w: nat)
    requires Path(c, states, steps) && i <= j <= |steps|
    requires forall t :: i <= t <= j ==> w in states[t].clients && states[t].clients[w].Reserving?
    ensures states[j].clients[w].k == states[i].clients[w].k && states[j].clients[w].addr == states[i].clients[w].addr
    decreases j - i
  {
    if i < j {
      assert OffloadRuns.Relation(c, false)(states[i], steps[i], states[i + 1]);
      HoldStep(c, states[i], steps[i], w);
      HoldStays(c, states, steps, i + 1, j, w);
    }
  }

  lemma GrantedHold(c: Config, s: State, w: nat, k: Key, size: nat, g: Grant, junk: Bytes)
    requires w !in s.clients && w in HasReserved(s, w, k, size, g, junk).clients
    ensures var t := HasReserved(s, w, k, size, g, junk);
            && t.clients[w] == Reserving(k, t.clients[w].addr, junk)
            && t.clients[w].addr in t.heap && t.heap[t.clients[w].addr] == junk && LeadsTo(t, k, t.clients[w].addr)
  {
    AllocShape(s.index, k, size, g);
  }

  lemma GrantedAt(c: Config, states: seq<State>, steps: seq<Step>, i: nat, j: nat, w: nat)
    requires Path(c, states, steps) && Puts(states, steps, i, j, w)
    ensures var h, h1 := states[j].clients[w], states[i + 1].clients[w];
            && h.k == h1.k == steps[i].call.k && h.addr == h1.addr
            && h.addr in states[i + 1].heap && states[i + 1].heap[h.addr] == h1.bytes
            && LeadsTo(states[i + 1], h.k, h.addr)
  {
    assert OffloadRuns.Relation(c, false)(states[i], steps[i], states[i + 1]);
    var call := steps[i].call;
    GrantedHold(c, states[i], w, call.k, call.size, call.g, call.junk);
    HoldStays(c, states, steps, i + 1, j, w);
  }

  /** In every run, careful or not: once its Put is through, the key leads to the memory this
      client reserved and wrote, if and only if in between nobody else got as far with a
      reservation of the key, granted or failed, nobody published it, and nobody gave that
      memory back. */
  lemma PutShowsOwnIff(c: Config, states: seq<State>, steps: seq<Step>, i: nat, j: nat, w: nat)
    requires Path(c, states, steps) && Puts(states, steps, i, j, w)
    ensures var h := states[j].clients[w];
            LeadsTo(states[j + 1], h.k, h.addr) && HeldOver(states, i + 1, j + 1, h.addr) <==>
            UndisturbedOver(states, steps, i + 1, j, h.k, h.addr)
  {
    var h := states[j].clients[w];
    GrantedAt(c, states, steps, i, j, w);
    StillLeadsIff(c, states, steps, i + 1, j + 1, h.k, h.addr);
    LastOver(states, steps, i + 1, j, h.k, h.addr);
  }

  // ---- What it shows ----

  /** Somebody else writes to the memory at a, from a reservation that is long gone. */
  predicate Overwrites(s: State, step: Step, w: nat, a: nat) {
    step.Client? && step.call.Fill? && step.call.w != w
    && step.call.w in s.clients && s.clients[step.call.w].Reserving? && s.clients[step.call.w].addr == a
  }

  /** What the client wrote is in its memory. */
  predicate WroteIt(s: State, w: nat) {
    w in s.clients && s.clients[w].Reserving? && s.clients[w].addr in s.heap
    && s.heap[s.clients[w].addr] == s.clients[w].bytes
  }

  lemma CallBytes(c: Config, s: State, call: Call, w: nat)
    requires CallPossible(c, s, call) && CallDefined(s, call) && WroteIt(s, w)
    requires !Overwrites(s, Client(call), w, s.clients[w].addr)
    requires s.clients[w].addr in AfterCall(c, s, call).heap
    requires w in AfterCall(c, s, call).clients && AfterCall(c, s, call).clients[w].Reserving?
    ensures WroteIt(AfterCall(c, s, call), w)
  {
    CallHold(c, s, call, w);
  }

  lemma BytesStep(c: Config, s: State, step: Step, w: nat)
    requires Possible(c, s, step) && Defined(c, s, step) && WroteIt(s, w)
    requires !Overwrites(s, step, w, s.clients[w].addr) && s.clients[w].addr in Next(c, s, step).heap
    requires w in Next(c, s, step).clients && Next(c, s, step).clients[w].Reserving?
    ensures WroteIt(Next(c, s, step), w)
  {
    if step.Client? { CallBytes(c, s, step.call, w); }
  }

  lemma {:induction false} BytesStay(c: Config, states: seq<State>, steps: seq<Step>, i: nat, j: nat, w: nat, a: nat)
    requires Path(c, states, steps) && i <= j <= |steps| && WroteIt(states[i], w) && states[i].clients[w].addr == a
    requires forall t :: i <= t <= j ==> w in states[t].clients && states[t].clients[w].Reserving?
    requires HeldOver(states, i, j, a) && forall t :: i <= t < j ==> !Overwrites(states[t], steps[t], w, a)
    ensures WroteIt(states[j], w)
    decreases j - i
  {
    if i < j {
      assert OffloadRuns.Relation(c, false)(states[i], steps[i], states[i + 1]);
      HoldStep(c, states[i], steps[i], w);
      BytesStep(c, states[i], steps[i], w);
      BytesStay(c, states, steps, i + 1, j, w, a);
    }
  }

  lemma PutShown(c: Config, s: State, w: nat, room: bool)
    requires WroteIt(s, w) && LeadsTo(s, s.clients[w].k, s.clients[w].addr)
    ensures Lookup(c, HasPut(s, w, room), s.clients[w].k) == Some(s.clients[w].bytes)
  {
  }

  /** Then what is found is what this client wrote last, if nobody else wrote there. */
  lemma PutShowsBytes(c: Config, states: seq<State>, steps: seq<Step>, i: nat, j: nat, w: nat)
    requires Path(c, states, steps) && Puts(states, steps, i, j, w)
    requires UndisturbedOver(states, steps, i + 1, j, states[j].clients[w].k, states[j].clients[w].addr)
    requires forall t :: i < t < j ==> !Overwrites(states[t], steps[t], w, states[j].clients[w].addr)
    ensures Lookup(c, states[j + 1], states[j].clients[w].k) == Some(states[j].clients[w].bytes)
  {
    var h := states[j].clients[w];
    GrantedAt(c, states, steps, i, j, w);
    StillLeadsIff(c, states, steps, i + 1, j, h.k, h.addr);
    BytesStay(c, states, steps, i + 1, j, w, h.addr);
    assert OffloadRuns.Relation(c, false)(states[j], steps[j], states[j + 1]);
    PutShown(c, states[j], w, steps[j].call.room);
  }

  // ---- Two clients and one key ----

  const RESERVES: seq<Step> :=
    [Client(Reserve(0, W.K1, 1, Granted(1), [0])), Client(Reserve(1, W.K1, 1, Granted(2), [0]))]

  /** Both reserved K1; the tree remembers the second. */
  ghost function BothReserved(): (s: State) {
    Initial(W.BLANK).(index := map[W.K1 := Wrapper(EMPTY, Memory(2), 1, EMPTY)], heap := map[1 := [0], 2 := [0]],
                      clients := map[0 := Reserving(W.K1, 1, [0]), 1 := Reserving(W.K1, 2, [0])])
  }

  lemma BothReserve(c: Config)
    ensures Leads(c, Initial(W.BLANK), RESERVES, BothReserved(), false)
  {
    var s := Initial(W.BLANK);
    var s1 := HasReserved(s, 0, W.K1, 1, Granted(1), [0]);
    OneStep(c, s, RESERVES[0], s1, false);
    var s2 := HasReserved(s1, 1, W.K1, 1, Granted(2), [0]);
    OneStep(c, s1, RESERVES[1], s2, false);
    Then(c, s, [RESERVES[0]], s1, [RESERVES[1]], s2, false);
    assert [RESERVES[0]] + [RESERVES[1]] == RESERVES;
    assert s2.index == BothReserved().index && s2.heap == BothReserved().heap && s2.clients == BothReserved().clients;
  }

  lemma FillAndPut(c: Config, s: State, w: nat, v: Bytes)
    requires w in s.clients && s.clients[w].Reserving? && |v| == |s.clients[w].bytes| && s.clients[w].addr in s.heap
    ensures Leads(c, s, [Client(Fill(w, v)), Client(PutReserved(w, true))], HasPut(HasFilled(s, w, v), w, true), false)
  {
    var s1 := HasFilled(s, w, v);
    FillLeads(c, s, w, v, false);
    PutReservedLeads(c, s1, w, true, false);
    Then(c, s, [Client(Fill(w, v))], s1, [Client(PutReserved(w, true))], HasPut(s1, w, true), false);
    assert [Client(Fill(w, v))] + [Client(PutReserved(w, true))] == [Client(Fill(w, v)), Client(PutReserved(w, true))];
  }

  /** A run in which two clients put the same absent key and both succeed. The first put shows
      memory that nobody wrote, and the second replaces the first. */
  lemma TwoReservationsRun() returns (states: seq<State>, steps: seq<Step>)
    ensures CarelessRun(W.Small(1), W.BLANK, states, steps) && |steps| == 6
    ensures steps[3] == Client(PutReserved(0, true)) && steps[5] == Client(PutReserved(1, true))
    ensures W.K1 in states[4].stored && states[4].stored[W.K1] == [1]
    ensures Lookup(W.Small(1), states[4], W.K1) == Some([0])
    ensures W.K1 in states[6].stored && states[6].stored[W.K1] == [2]
    ensures Lookup(W.Small(1), states[6], W.K1) == Some([2])
  {
    var c, s := W.Small(1), BothReserved();
    BothReserve(c);
    FillAndPut(c, s, 0, [1]);
    var t := HasPut(HasFilled(s, 0, [1]), 0, true);
    FillAndPut(c, t, 1, [2]);
    var u := HasPut(HasFilled(t, 1, [2]), 1, true);
    var a := [Client(Fill(0, [1])), Client(PutReserved(0, true))];
    var b := [Client(Fill(1, [2])), Client(PutReserved(1, true))];
    Then(c, Initial(W.BLANK), RESERVES, s, a, t, false);
    steps := RESERVES + a + b;
    states := Paths.Through(OffloadRuns.Relation(c, false), Initial(W.BLANK), RESERVES + a, t, b, u);
    PathIsCareless(c, W.BLANK, states, steps);
    FirstPutShows(c);
    SecondPutShows(c);
  }

  lemma FirstPutShows(c: Config)
    ensures var t := HasPut(HasFilled(BothReserved(), 0, [1]), 0, true);
            t.stored == map[W.K1 := [1]] && Lookup(c, t, W.K1) == Some([0])
  {
  }

  lemma SecondPutShows(c: Config)
    ensures var t := HasPut(HasFilled(BothReserved(), 0, [1]), 0, true);
            1 in t.clients && t.clients[1] == Reserving(W.K1, 2, [0]) &&
            var u := HasPut(HasFilled(t, 1, [2]), 1, true);
            u.stored == map[W.K1 := [2]] && Lookup(c, u, W.K1) == Some([2])
  {
  }
}
