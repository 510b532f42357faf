/** Quiescing a device (lib/spdk/SpdkBdev.h, lib/spdk/SpdkBdev.cpp,
    lib/offload/FinalizePoller.cpp). The device thread checks the state machine, submits and
    completes; the finalizer hands reads back; the client thread quiesces and aborts at any
    moment, also between a check and the submission it allowed. */
module DeviceState {
  datatype IOState = INIT | READY | ERROR | QUIESCING | QUIESCENT | STOPPED | ABORTED

  datatype FinState = FP_READY | FP_QUIESCING | FP_QUIESCENT

  type Counter32 = n: nat | n < 0x1_0000_0000

  /** `outstanding` and `ioBufsInUse` are the code's counters. What they stand for:
      `inFlight` transfers the device works on, `waiting` ones queued for want of I/O memory,
      `unfinalized` completed reads, and `pending` while the device thread has passed the
      check and not yet submitted. The rest counts what happened. */
  datatype State = State(
    io: IOState, fin: FinState, outstanding: nat, ioBufsInUse: Counter32,
    inFlight: nat, waiting: nat, unfinalized: nat, pending: bool,
    submissions: nat, rejected: nat, refused: nat, dropped: nat)

  /** How a submission ends: taken, queued for later, or refused for good. */
  datatype Outcome = Accepted | NoMemory | Refused

  datatype Step =
    | Quiesce
    | Abort
    | Check
    | Submit(outcome: Outcome)
    | Retry(accepted: bool)
    | Complete(read: bool)
    | Finalize

  /** The next state and whether the caller must give up. */
  function StateMachine(io: IOState, outstanding: nat): (r: (IOState, bool)) {
    match io
    case QUIESCING => if outstanding == 0 then (QUIESCENT, true) else (QUIESCING, false)
    case QUIESCENT => (QUIESCENT, true)
    case ABORTED => (ABORTED, true)
    case _ => (io, false)
  }

  function Inc(n: Counter32): (m: Counter32) { if n == 0xFFFF_FFFF then 0 else n + 1 }

  function Dec(n: Counter32): (m: Counter32) { if n == 0 then 0xFFFF_FFFF else n - 1 }

  predicate Enabled(s: State, step: Step) {
    match step
    case Quiesce => true
    case Abort => true
    case Check => !s.pending
    case Submit(_) => s.pending
    case Retry(_) => !s.pending && s.waiting > 0
    case Complete(_) => !s.pending && s.inFlight > 0
    case Finalize => s.unfinalized > 0
  }

  /** A rejected transfer gives back a buffer it never took; a refused one keeps its count; a
      finalizer that is not ready drops reads together with their buffers. */
  function Next(s: State, step: Step): (s': State)
    requires Enabled(s, step)
  {
    match step
    case Quiesce => s.(io := QUIESCING, fin := FP_QUIESCING)
    case Abort => s.(io := ABORTED)
    case Check =>
      var (io, stop) := StateMachine(s.io, s.outstanding);
      if stop then s.(io := io, ioBufsInUse := Dec(s.ioBufsInUse), rejected := s.rejected + 1)
      else s.(io := io, pending := true)
    case Submit(outcome) =>
      var s1 := s.(pending := false, outstanding := s.outstanding + 1, ioBufsInUse := Inc(s.ioBufsInUse));
      (match outcome
       case Accepted => s1.(inFlight := s.inFlight + 1, submissions := s.submissions + 1)
       case NoMemory => s1.(waiting := s.waiting + 1)
       case Refused => s1.(refused := s.refused + 1))
    case Retry(accepted) =>
      if accepted then s.(waiting := s.waiting - 1, inFlight := s.inFlight + 1, submissions := s.submissions + 1) else s
    case Complete(read) =>
      var left := if s.outstanding > 0 then s.outstanding - 1 else 0;
      s.(inFlight := s.inFlight - 1, outstanding := left, io := StateMachine(s.io, left).0,
         ioBufsInUse := if read then s.ioBufsInUse else Dec(s.ioBufsInUse),
         unfinalized := s.unfinalized + if read then 1 else 0)
    case Finalize =>
      if s.fin == FP_READY then s.(unfinalized := s.unfinalized - 1, ioBufsInUse := Dec(s.ioBufsInUse))
      else s.(unfinalized := s.unfinalized - 1, dropped := s.dropped + 1)
  }

  function Fresh(io: IOState): (s: State) {
    State(io, FP_READY, 0, 0, 0, 0, 0, false, 0, 0, 0, 0)
  }

  /** A run from a fresh device; the code leaves the first I/O state unset, so it may be any. */
  ghost predicate Run(states: seq<State>, steps: seq<Step>) {
    && |states| == |steps| + 1
    && (exists io :: states[0] == Fresh(io))
    && forall i :: 0 <= i < |steps| ==> Enabled(states[i], steps[i]) && states[i + 1] == Next(states[i], steps[i])
  }

  predicate Idle(s: State) {
    s.outstanding == 0 && s.inFlight == 0 && s.waiting == 0 && !s.pending
  }

  /** The counter covers everything under way, exactly if nothing was refused for good, and a
      quiescent device is idle. */
  predicate Inv(s: State) {
    && s.outstanding == s.inFlight + s.waiting + s.refused
    && (s.io == QUIESCENT ==> Idle(s))
    && s.fin != FP_QUIESCENT
  }

  lemma {:induction false} InvAlways(states: seq<State>, steps: seq<Step>, i: nat)
    requires Run(states, steps) && i <= |steps|
    ensures Inv(states[i])
  {
    if i > 0 {
      InvAlways(states, steps, i - 1);
      assert Enabled(states[i - 1], steps[i - 1]) && states[i] == Next(states[i - 1], steps[i - 1]);
    }
  }

  /** In every run a quiescent device has nothing in flight, nothing waiting to be
      resubmitted, and no thread about to submit. */
  lemma QuiescentIsIdle(states: seq<State>, steps: seq<Step>, i: nat)
    requires Run(states, steps) && i <= |steps| && states[i].io == QUIESCENT
    ensures Idle(states[i])
  {
    InvAlways(states, steps, i);
  }

  /** Idle and in a state that lets nothing through, now or after another quiesce or abort. */
  predicate Closed(s: State) {
    Idle(s) && (s.io == QUIESCENT || s.io == QUIESCING || s.io == ABORTED)
  }

  lemma ClosedStays(s: State, step: Step)
    requires Closed(s) && Enabled(s, step)
    ensures Closed(Next(s, step)) && Next(s, step).submissions == s.submissions
  {
  }

  /** From the first quiescent moment on nothing is ever submitted again, whatever the
      clients ask for. */
  lemma {:induction false} NothingAfterQuiescent(states: seq<State>, steps: seq<Step>, i: nat, j: nat)
    requires Run(states, steps) && i <= j <= |steps| && states[i].io == QUIESCENT
    ensures Closed(states[j]) && states[j].submissions == states[i].submissions
    decreases j
  {
    if i == j {
      QuiescentIsIdle(states, steps, i);
    } else {
      NothingAfterQuiescent(states, steps, i, j - 1);
      assert Enabled(states[j - 1], steps[j - 1]);
      ClosedStays(states[j - 1], steps[j - 1]);
    }
  }

  /** A device becomes quiescent exactly when it is quiescing, the device thread looks, and
      the counter has come down to zero. */
  lemma BecomesQuiescentIff(states: seq<State>, steps: seq<Step>, i: nat)
    requires Run(states, steps) && i < |steps| && states[i].io != QUIESCENT
    ensures states[i + 1].io == QUIESCENT <==>
              && states[i].io == QUIESCING
              && ((steps[i].Check? && states[i].outstanding == 0) || (steps[i].Complete? && states[i].outstanding == 1))
  {
    InvAlways(states, steps, i);
    assert Enabled(states[i], steps[i]) && states[i + 1] == Next(states[i], steps[i]);
  }

  lemma {:induction false} RefusalsStay(states: seq<State>, steps: seq<Step>, i: nat, j: nat)
    requires Run(states, steps) && i < j <= |steps| && steps[i] == Submit(Refused)
    ensures states[j].refused > 0
    decreases j
  {
    assert Enabled(states[j - 1], steps[j - 1]) && states[j] == Next(states[j - 1], steps[j - 1]);
    if i + 1 < j { RefusalsStay(states, steps, i, j - 1); }
  }

  /** The counter is exact until a submission is refused for good; after a refusal the
      device never becomes quiescent. */
  lemma RefusalBlocksQuiescence(states: seq<State>, steps: seq<Step>, i: nat, j: nat)
    requires Run(states, steps) && i < j <= |steps| && steps[i] == Submit(Refused)
    ensures states[j].outstanding > states[j].inFlight + states[j].waiting && states[j].io != QUIESCENT
  {
    RefusalsStay(states, steps, i, j);
    InvAlways(states, steps, j);
  }

  /** `isIOQuiescent`. */
  predicate ReportsQuiescent(s: State) {
    (s.io == QUIESCENT || s.io == ABORTED) && s.fin == FP_QUIESCENT
  }

  /** The finalizer never enters its quiescent state, so no run ever reports that the I/O is
      quiescent, whether it is or not. */
  lemma NeverReportsQuiescent(states: seq<State>, steps: seq<Step>, i: nat)
    requires Run(states, steps) && i <= |steps|
    ensures !ReportsQuiescent(states[i])
  {
    InvAlways(states, steps, i);
  }

  // ---- When a transfer is let through ----

  predicate Asks(step: Step) {
    step.Quiesce? || step.Abort?
  }

  /** The device thread looks at step i and finds nothing outstanding. */
  predicate SeesNone(states: seq<State>, steps: seq<Step>, i: nat)
    requires i < |steps| && i < |states|
  {
    (steps[i].Check? && states[i].outstanding == 0) || (steps[i].Complete? && states[i].outstanding <= 1)
  }

  /** The last quiesce or abort before n. */
  ghost predicate LastAsked(steps: seq<Step>, n: nat, l: nat) {
    l < n <= |steps| && Asks(steps[l]) && forall t :: l < t < n ==> !Asks(steps[t])
  }

  ghost predicate NeverAsked(steps: seq<Step>, n: nat) {
    n <= |steps| && forall t :: 0 <= t < n ==> !Asks(steps[t])
  }

  ghost predicate SeenNone(states: seq<State>, steps: seq<Step>, l: nat, n: nat)
    requires n <= |steps| && |steps| < |states|
  {
    exists t: nat :: l < t < n && SeesNone(states, steps, t)
  }

  /** A device that nobody asked stays as it was found, and lets everything through. */
  predicate Serving(io: IOState) {
    io == INIT || io == READY || io == ERROR || io == STOPPED
  }

  /** Every transfer of a run is submitted as long as nobody quiesces or aborts. */
  lemma {:induction false} ReadyDeviceSubmits(states: seq<State>, steps: seq<Step>, n: nat)
    requires Run(states, steps) && Serving(states[0].io) && NeverAsked(steps, n)
    ensures states[n].io == states[0].io && states[n].rejected == 0
    ensures n < |steps| && steps[n].Check? ==> states[n + 1].pending && states[n + 1].rejected == 0
  {
    if n > 0 {
      ReadyDeviceSubmits(states, steps, n - 1);
      assert Enabled(states[n - 1], steps[n - 1]) && states[n] == Next(states[n - 1], steps[n - 1]);
    }
    if n < |steps| { assert states[n + 1] == Next(states[n], steps[n]); }
  }

  lemma {:induction false} AbortedSince(states: seq<State>, steps: seq<Step>, l: nat, n: nat)
    requires Run(states, steps) && LastAsked(steps, n, l) && steps[l].Abort?
    ensures states[n].io == ABORTED
    decreases n
  {
    assert Enabled(states[n - 1], steps[n - 1]) && states[n] == Next(states[n - 1], steps[n - 1]);
    if l + 1 < n { AbortedSince(states, steps, l, n - 1); }
  }

  lemma QuiescingStep(states: seq<State>, steps: seq<Step>, i: nat)
    requires Run(states, steps) && i < |steps| && !Asks(steps[i])
    requires states[i].io == QUIESCING || states[i].io == QUIESCENT
    ensures states[i + 1].io ==
            if states[i].io == QUIESCENT || SeesNone(states, steps, i) then QUIESCENT else QUIESCING
  {
    assert Enabled(states[i], steps[i]) && states[i + 1] == Next(states[i], steps[i]);
  }

  lemma {:induction false} QuiescedSince(states: seq<State>, steps: seq<Step>, l: nat, n: nat)
    requires Run(states, steps) && LastAsked(steps, n, l) && steps[l].Quiesce?
    ensures states[n].io == if SeenNone(states, steps, l, n) then QUIESCENT else QUIESCING
    decreases n
  {
    if l + 1 == n {
      assert Enabled(states[l], steps[l]) && states[n] == Next(states[l], steps[l]);
    } else {
      QuiescedSince(states, steps, l, n - 1);
      QuiescingStep(states, steps, n - 1);
      assert SeenNone(states, steps, l, n) <==> SeenNone(states, steps, l, n - 1) || SeesNone(states, steps, n - 1);
    }
  }

  /** In every run of a device that was serving, a transfer is rejected exactly when the last
      thing asked for before it was an abort, or was a quiesce and the device thread has since
      found nothing outstanding, at the latest now. */
  lemma RejectedIff(states: seq<State>, steps: seq<Step>, i: nat)
    requires Run(states, steps) && Serving(states[0].io) && i < |steps| && steps[i].Check?
    ensures states[i + 1].rejected == states[i].rejected + 1 <==>
            exists l: nat :: LastAsked(steps, i, l) && (steps[l].Abort? || SeenNone(states, steps, l, i + 1))
    ensures states[i + 1].pending <==> states[i + 1].rejected == states[i].rejected
  {
    assert Enabled(states[i], steps[i]) && states[i + 1] == Next(states[i], steps[i]);
    if NeverAsked(steps, i) {
      ReadyDeviceSubmits(states, steps, i);
    } else {
      var l := FindLast(steps, i);
      assert forall x: nat :: LastAsked(steps, i, x) ==> x == l;
      if steps[l].Abort? { AbortedSince(states, steps, l, i); } else { RejectedAfterQuiesce(states, steps, l, i); }
    }
  }

  lemma RejectedAfterQuiesce(states: seq<State>, steps: seq<Step>, l: nat, i: nat)
    requires Run(states, steps) && LastAsked(steps, i, l) && steps[l].Quiesce? && i < |steps| && steps[i].Check?
    ensures states[i + 1].rejected == states[i].rejected + 1 <==> SeenNone(states, steps, l, i + 1)
  {
    assert Enabled(states[i], steps[i]) && states[i + 1] == Next(states[i], steps[i]);
    QuiescedSince(states, steps, l, i);
    assert SeenNone(states, steps, l, i + 1) <==> SeenNone(states, steps, l, i) || SeesNone(states, steps, i);
  }

  lemma FindLast(steps: seq<Step>, n: nat) returns (l: nat)
    requires n <= |steps| && !NeverAsked(steps, n)
    ensures LastAsked(steps, n, l)
  {
    l := n - 1;
    if !Asks(steps[l]) { l := FindLast(steps, n - 1); }
  }

  // ---- The buffer count ----

  /** The counter went round `wraps` times the 32-bit way. */
  ghost predicate Counted(s: State, wraps: int) {
    s.ioBufsInUse + 0x1_0000_0000 * wraps == Sum(s)
  }

  /** What was counted up and not down again. */
  function Sum(s: State): (n: int) {
    s.inFlight + s.waiting + s.unfinalized + s.refused + s.dropped - s.rejected
  }

  lemma {:induction false} BuffersCounted(states: seq<State>, steps: seq<Step>, i: nat) returns (wraps: int)
    requires Run(states, steps) && i <= |steps|
    ensures Counted(states[i], wraps)
  {
    if i == 0 { return 0; }
    wraps := BuffersCounted(states, steps, i - 1);
    var s, s' := states[i - 1], states[i];
    assert Enabled(s, steps[i - 1]) && s' == Next(s, steps[i - 1]);
    CountedStep(s, steps[i - 1]);
    if s.ioBufsInUse == 0 && s'.ioBufsInUse == 0xFFFF_FFFF { return wraps - 1; }
    if s.ioBufsInUse == 0xFFFF_FFFF && s'.ioBufsInUse == 0 { return wraps + 1; }
  }

  /** What a step does to the counter it does to the sum, in 32 bits. */
  lemma CountedStep(s: State, step: Step)
    requires Enabled(s, step)
    ensures var s' := Next(s, step);
            var d, n, n' := Sum(s') - Sum(s), s.ioBufsInUse, s'.ioBufsInUse;
            || (d == 0 && n' == n)
            || (d == 1 && n' == if n == 0xFFFF_FFFF then 0 else n + 1)
            || (d == -1 && n' == if n == 0 then 0xFFFF_FFFF else n - 1)
  {
  }

  /** `ioBufsInUse` is the number of transfers under way and reads not finalized if and only
      if the transfers rejected make up for those refused or dropped, in 32 bits. */
  lemma BuffersExactIff(states: seq<State>, steps: seq<Step>, i: nat)
    requires Run(states, steps) && i <= |steps|
    requires states[i].inFlight + states[i].waiting + states[i].unfinalized < 0x1_0000_0000
    ensures states[i].ioBufsInUse == states[i].inFlight + states[i].waiting + states[i].unfinalized <==>
            (states[i].refused + states[i].dropped - states[i].rejected) % 0x1_0000_0000 == 0
  {
    var wraps := BuffersCounted(states, steps, i);
  }

  // ---- Two runs ----

  lemma Extend(states: seq<State>, steps: seq<Step>, step: Step)
    requires Run(states, steps) && Enabled(states[|steps|], step)
    ensures Run(states + [Next(states[|steps|], step)], steps + [step])
  {
  }

  /** A quiesce on an idle device, then one transfer: it is rejected and the counter wraps. */
  lemma RejectionWrapsCounter() returns (states: seq<State>, steps: seq<Step>)
    ensures Run(states, steps) && steps == [Quiesce, Check]
    ensures states[2].ioBufsInUse == 0xFFFF_FFFF && Idle(states[2]) && states[2].io == QUIESCENT
  {
    states, steps := [Fresh(READY)], [];
    assert Run(states, steps);
    Extend(states, steps, Quiesce);
    states, steps := states + [Next(states[0], Quiesce)], steps + [Quiesce];
    Extend(states, steps, Check);
    states, steps := states + [Next(states[1], Check)], steps + [Check];
  }

  /** Aborting alone is weaker: quiescing an aborted device lets submissions through again
      if and only if I/O was still outstanding. */
  lemma AbortReopensIff(s: State)
    requires s.io == ABORTED && !s.pending
    ensures !Next(s, Check).pending
    ensures Next(Next(s, Quiesce), Check).pending <==> s.outstanding > 0
  {
  }

  lemma AbortedRun() returns (states: seq<State>, steps: seq<Step>)
    ensures Run(states, steps) && steps == [Check, Submit(Accepted), Abort]
    ensures states[3] == State(ABORTED, FP_READY, 1, 1, 1, 0, 0, false, 1, 0, 0, 0)
  {
    states, steps := [Fresh(READY)], [];
    assert Run(states, steps);
    Extend(states, steps, Check);
    states, steps := states + [Next(states[0], Check)], steps + [Check];
    Extend(states, steps, Submit(Accepted));
    states, steps := states + [Next(states[1], Submit(Accepted))], steps + [Submit(Accepted)];
    Extend(states, steps, Abort);
    states, steps := states + [Next(states[2], Abort)], steps + [Abort];
  }

  /** A run in which an aborted device submits again: one transfer under way, an abort, a
      quiesce. */
  lemma AbortedDeviceSubmits() returns (states: seq<State>, steps: seq<Step>)
    ensures Run(states, steps) && steps == [Check, Submit(Accepted), Abort, Quiesce, Check, Submit(Accepted)]
    ensures states[3].io == ABORTED && states[3].submissions == 1 && states[6].submissions == 2
  {
    states, steps := AbortedRun();
    Extend(states, steps, Quiesce);
    states, steps := states + [Next(states[3], Quiesce)], steps + [Quiesce];
    Extend(states, steps, Check);
    states, steps := states + [Next(states[4], Check)], steps + [Check];
    Extend(states, steps, Submit(Accepted));
    states, steps := states + [Next(states[5], Submit(Accepted))], steps + [Submit(Accepted)];
  }

  // ---- The classes ----

  class FinalizePoller {
    var state: FinState

    constructor ()
      ensures state == FP_READY
    {
      state := FP_READY;
    }

    method Quiesce()
      modifies this
      ensures state == FP_QUIESCING
    {
      state := FP_QUIESCING;
    }

    predicate IsQuiescent()
      reads this
    {
      state == FP_QUIESCENT
    }
  }

  /** The fields of SpdkBdev that take part. */
  class SpdkBdev {
    const finalizer: FinalizePoller
    var ioState: IOState
    var outstandingIoCnt: nat
    var ioBufsInUse: Counter32
    ghost var inFlight: nat
    ghost var waiting: nat
    ghost var unfinalized: nat
    ghost var pending: bool
    ghost var submissions: nat
    ghost var rejected: nat
    ghost var refused: nat
    ghost var dropped: nat

    ghost function Abs(): State
      reads this, finalizer
    {
      State(ioState, finalizer.state, outstandingIoCnt, ioBufsInUse, inFlight, waiting, unfinalized, pending,
            submissions, rejected, refused, dropped)
    }

    constructor (first: IOState)
      ensures Abs() == Fresh(first) && fresh(finalizer)
    {
      finalizer := new FinalizePoller();
      ioState, outstandingIoCnt, ioBufsInUse := first, 0, 0;
      inFlight, waiting, unfinalized, pending := 0, 0, 0, false;
      submissions, rejected, refused, dropped := 0, 0, 0, 0;
    }

    method IOQuiesce()
      modifies this, finalizer
      ensures Abs() == Next(old(Abs()), Quiesce)
    {
      finalizer.Quiesce();
      ioState := QUIESCING;
    }

    method IOAbort()
      modifies this
      ensures Abs() == Next(old(Abs()), Abort)
    {
      ioState := ABORTED;
    }

    method IsIOQuiescent() returns (b: bool)
      ensures b == ReportsQuiescent(Abs())
    {
      b := (ioState == QUIESCENT || ioState == ABORTED) && finalizer.IsQuiescent();
    }

    /** `stateMachine`, apart from `deinit`. */
    method RunStateMachine() returns (stop: bool)
      modifies this`ioState
      ensures (ioState, stop) == StateMachine(old(ioState), outstandingIoCnt)
    {
      match ioState {
        case QUIESCING =>
          if outstandingIoCnt == 0 {
            ioState := QUIESCENT;
            return true;
          }
        case QUIESCENT => return true;
        case ABORTED => return true;
        case _ =>
      }
      return false;
    }

    /** `doRead` and `doWrite`: refused by the state machine, or submitted. */
    method DoTransfer(outcome: Outcome) returns (ok: bool)
      requires !pending
      modifies this
      ensures var checked := Next(old(Abs()), Check);
              Abs() == if checked.pending then Next(checked, Submit(outcome)) else checked
      ensures ok <==> Next(old(Abs()), Check).pending && outcome != Refused
      ensures Serving(old(ioState)) ==> ok == (outcome != Refused) && rejected == old(rejected)
    {
      var stop := RunStateMachine();
      if stop {
        ioBufsInUse := Dec(ioBufsInUse);
        rejected := rejected + 1;
        return false;
      }
      ioBufsInUse := Inc(ioBufsInUse);
      outstandingIoCnt := outstandingIoCnt + 1;
      match outcome {
        case Accepted => inFlight, submissions := inFlight + 1, submissions + 1;
        case NoMemory => waiting := waiting + 1;
        case Refused => refused := refused + 1;
      }
      return !outcome.Refused?;
    }

    /** `readComplete` and `writeComplete`. */
    method TransferComplete(read: bool)
      requires !pending && inFlight > 0
      modifies this
      ensures Abs() == Next(old(Abs()), Complete(read))
    {
      inFlight := inFlight - 1;
      if read { unfinalized := unfinalized + 1; } else { ioBufsInUse := Dec(ioBufsInUse); }
      if outstandingIoCnt != 0 { outstandingIoCnt := outstandingIoCnt - 1; }
      var _ := RunStateMachine();
    }

    /** The finalizer's part of a read. */
    method FinalizeRead()
      requires unfinalized > 0
      modifies this
      ensures Abs() == Next(old(Abs()), Finalize)
    {
      unfinalized := unfinalized - 1;
      if finalizer.state == FP_READY { ioBufsInUse := Dec(ioBufsInUse); } else { dropped := dropped + 1; }
    }
  }
}
