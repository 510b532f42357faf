/** `ioBufsInUse` is a plain 32-bit counter that two threads change (lib/spdk/SpdkBdev.cpp,
    lib/offload/FinalizePoller.cpp): each update loads it and stores it back later. Here
    load and store are steps of their own, and `owed` is what the counter should be. */
module OffloadCounter {
  import opened Basics
  import opened ValueIndex
  import opened Extents
  import opened OffloadState
  import opened OffloadData
  import opened OffloadClients
  import opened OffloadTheorems
  import OffloadRuns
  import Paths
  import W = OffloadWitnesses
  import S = OffloadStages
  import A = OffloadAccounting

  datatype Thread = DeviceThread | FinalizerThread

  /** What a thread loaded, and what was owed at that moment. */
  datatype Loaded = Loaded(counter: int, owed: int)

  /** `s.ioBufsInUse` is the counter as it is in memory. */
  datatype Shared = Shared(s: State, owed: int, loaded: map<Thread, Loaded>)

  datatype CounterStep = Load(t: Thread) | Do(step: Step)

  /** Which thread updates the counter in this step, and by how much. */
  function Touch(s: State, step: Step): (u: Option<(Thread, int)>) {
    var d := A.Delta(s, step);
    if d == 0 then None else Some((if step.FinProcess? then FinalizerThread else DeviceThread, d))
  }

  ghost predicate CanDo(c: Config, x: Shared, step: CounterStep) {
    match step
    case Load(t) => t !in x.loaded
    case Do(p) => Enabled(c, x.s, p) && (Touch(x.s, p).Some? ==> Touch(x.s, p).value.0 in x.loaded)
  }

  /** What 32 bits keep of a number. */
  function Wrap(n: int): (r: nat)
    ensures r < 0x1_0000_0000
  {
    n % 0x1_0000_0000
  }

  /** A step that updates the counter stores what its thread loaded, plus or minus one. */
  ghost function After(c: Config, x: Shared, p: Step): (x': Shared)
    requires Enabled(c, x.s, p) && Defined(c, x.s, p)
    requires Touch(x.s, p).Some? ==> Touch(x.s, p).value.0 in x.loaded
  {
    var s' := Next(c, x.s, p);
    match Touch(x.s, p)
    case None => x.(s := s')
    case Some(u) => Shared(s'.(ioBufsInUse := Wrap(x.loaded[u.0].counter + u.1)), x.owed + u.1, x.loaded - {u.0})
  }

  ghost predicate Advances(c: Config, x: Shared, step: CounterStep, x': Shared) {
    CanDo(c, x, step) &&
    match step
    case Load(t) => x' == x.(loaded := x.loaded[t := Loaded(x.s.ioBufsInUse, x.owed)])
    case Do(p) => Defined(c, x.s, p) ==> x' == After(c, x, p)
  }

  ghost function Relation(c: Config): (Shared, CounterStep, Shared) -> bool {
    (x, step, x') => Advances(c, x, step, x')
  }

  ghost predicate Run(c: Config, disk: Bytes, xs: seq<Shared>, steps: seq<CounterStep>) {
    Paths.Path(Relation(c), xs, steps) && xs[0] == Shared(Initial(disk), 0, map[])
  }

  // ---- The race does not touch requests and bytes ----

  /** Requests, bytes and what is owed; nothing here depends on the counter. */
  ghost predicate Sound(c: Config, x: Shared) {
    Consistent(c, x.s) && A.InUse(x.s, x.owed)
  }

  lemma CounterIsAside(c: Config, s: State, n: int, m: int)
    requires Consistent(c, s) && A.InUse(s, n)
    ensures Consistent(c, s.(ioBufsInUse := m)) && A.InUse(s.(ioBufsInUse := m), n)
  {
    var s' := s.(ioBufsInUse := m);
    assert S.UnansweredSet(s') == S.UnansweredSet(s);
    ClientsFrame(s, s');
  }

  lemma NextKeepsSound(c: Config, s: State, p: Step, n: int)
    requires Consistent(c, s) && A.InUse(s, n) && Enabled(c, s, p) && Defined(c, s, p)
    ensures Consistent(c, Next(c, s, p)) && A.InUse(Next(c, s, p), n + A.Delta(s, p))
  {
    ConsistentKept(c, s, p);
    A.InUseKept(c, s, p, n);
  }

  lemma AfterShape(c: Config, x: Shared, p: Step)
    requires Enabled(c, x.s, p) && Defined(c, x.s, p)
    requires Touch(x.s, p).Some? ==> Touch(x.s, p).value.0 in x.loaded
    ensures After(c, x, p).s == Next(c, x.s, p).(ioBufsInUse := After(c, x, p).s.ioBufsInUse)
    ensures After(c, x, p).owed == x.owed + A.Delta(x.s, p)
    ensures Touch(x.s, p).Some? ==>
              var t := Touch(x.s, p).value.0;
              && After(c, x, p).s.ioBufsInUse == Wrap(x.loaded[t].counter + A.Delta(x.s, p))
              && After(c, x, p).loaded == x.loaded - {t}
  {
  }

  lemma DoKeepsSound(c: Config, x: Shared, p: Step)
    requires Sound(c, x) && Enabled(c, x.s, p) && Defined(c, x.s, p)
    requires Touch(x.s, p).Some? ==> Touch(x.s, p).value.0 in x.loaded
    ensures Sound(c, After(c, x, p))
  {
    NextKeepsSound(c, x.s, p, x.owed);
    AfterShape(c, x, p);
    StoredSound(c, Next(c, x.s, p), x.owed + A.Delta(x.s, p), After(c, x, p));
  }

  lemma StoredSound(c: Config, t: State, n: int, x: Shared)
    requires Consistent(c, t) && A.InUse(t, n) && x.s == t.(ioBufsInUse := x.s.ioBufsInUse) && x.owed == n
    ensures Sound(c, x)
  {
    CounterIsAside(c, t, n, x.s.ioBufsInUse);
  }

  lemma SoundStep(c: Config, x: Shared, step: CounterStep, x': Shared)
    requires Sound(c, x) && Advances(c, x, step, x')
    ensures Sound(c, x') && (step.Do? ==> Defined(c, x.s, step.step) && x' == After(c, x, step.step))
  {
    if step.Do? {
      AlwaysDefined(c, x.s, step.step);
      DoKeepsSound(c, x, step.step);
    }
  }

  /** Whatever the race does to the counter, in every run requests stay at one stage, bytes
      stay right, every step finds what it needs, and `owed` is what is really in use. */
  lemma {:induction false} SoundAlways(c: Config, disk: Bytes, xs: seq<Shared>, steps: seq<CounterStep>, i: nat)
    requires Run(c, disk, xs, steps) && i <= |steps|
    ensures Sound(c, xs[i])
  {
    if i == 0 {
      InvInitially(c, disk);
    } else {
      SoundAlways(c, disk, xs, steps, i - 1);
      assert Relation(c)(xs[i - 1], steps[i - 1], xs[i]);
      SoundStep(c, xs[i - 1], steps[i - 1], xs[i]);
    }
  }

  // ---- What a step does to the counter ----

  /** Who stores into the counter at step i, and by how much it changes what is owed. */
  function Store(xs: seq<Shared>, steps: seq<CounterStep>, i: nat): (u: Option<(Thread, int)>)
    requires i < |steps| && i < |xs|
  {
    if steps[i].Do? then Touch(xs[i].s, steps[i].step) else None
  }

  function Change(xs: seq<Shared>, steps: seq<CounterStep>, i: nat): (d: int)
    requires i < |steps| && i < |xs|
  {
    if Store(xs, steps, i).Some? then Store(xs, steps, i).value.1 else 0
  }

  /** What a load, a store or anything else does to the counter, what is owed and what is
      loaded. */
  ghost predicate Counts(x: Shared, step: CounterStep, u: Option<(Thread, int)>, x': Shared) {
    match u
    case Some(m) =>
      && m.0 in x.loaded && x'.s.ioBufsInUse == Wrap(x.loaded[m.0].counter + m.1)
      && x'.owed == x.owed + m.1 && x'.loaded == x.loaded - {m.0} && step.Do?
    case None =>
      && x'.owed == x.owed && x'.s.ioBufsInUse == x.s.ioBufsInUse
      && (match step
          case Load(t) => t !in x.loaded && x'.loaded == x.loaded[t := Loaded(x.s.ioBufsInUse, x.owed)]
          case Do(_) => x'.loaded == x.loaded)
  }

  /** The engine takes on at most what `canQueue` says, and otherwise only uses up what it has
      taken on. */
  ghost predicate TakesOn(c: Config, x: Shared, step: CounterStep, x': Shared) {
    var n, n' := |x.s.pipe.engineBatch|, |x'.s.pipe.engineBatch|;
    if step.Do? && step.step.EngineDequeue? then n == 0 && n' <= CanQueue(c, x.s) && x'.owed == x.owed
    else x'.owed + n' <= x.owed + n && (n == 0 ==> n' == 0)
  }

  lemma DoCounts(c: Config, x: Shared, p: Step)
    requires Enabled(c, x.s, p) && Defined(c, x.s, p)
    requires Touch(x.s, p).Some? ==> Touch(x.s, p).value.0 in x.loaded
    ensures Counts(x, Do(p), Touch(x.s, p), After(c, x, p)) && TakesOn(c, x, Do(p), After(c, x, p))
  {
    A.CounterStep(c, x.s, p);
  }

  lemma StepCounts(c: Config, disk: Bytes, xs: seq<Shared>, steps: seq<CounterStep>, i: nat)
    requires Run(c, disk, xs, steps) && i < |steps|
    ensures Counts(xs[i], steps[i], Store(xs, steps, i), xs[i + 1]) && TakesOn(c, xs[i], steps[i], xs[i + 1])
    ensures 0 <= xs[i].owed && 0 <= xs[i + 1].owed
  {
    SoundAlways(c, disk, xs, steps, i);
    SoundAlways(c, disk, xs, steps, i + 1);
    assert Relation(c)(xs[i], steps[i], xs[i + 1]);
    SoundStep(c, xs[i], steps[i], xs[i + 1]);
    if steps[i].Do? { DoCounts(c, xs[i], steps[i].step); }
  }

  // ---- When the counter is exact ----

  /** Whatever was stored since the load of what step i stores adds up to nothing, in 32
      bits. */
  predicate Undisturbed(xs: seq<Shared>, steps: seq<CounterStep>, i: nat)
    requires i < |steps| && i < |xs|
  {
    Store(xs, steps, i).Some? ==>
      var t := Store(xs, steps, i).value.0;
      t in xs[i].loaded && Wrap(xs[i].owed - xs[i].loaded[t].owed) == 0
  }

  ghost predicate UndisturbedOver(xs: seq<Shared>, steps: seq<CounterStep>, i: nat, j: nat)
    requires i <= j <= |steps| && |steps| < |xs|
  {
    forall k :: i <= k < j ==> Undisturbed(xs, steps, k)
  }

  /** What the counter says when n buffers are in use and it is d short. */
  function Says(n: int, d: int): (r: nat)
    ensures r < 0x1_0000_0000
  {
    Wrap(n - d)
  }

  /** The counter is d short of what is owed, and so is what was loaded, each for its moment. */
  ghost predicate Short(x: Shared, d: int) {
    && x.s.ioBufsInUse == Says(x.owed, d)
    && forall t :: t in x.loaded ==> x.loaded[t].counter == Says(x.loaded[t].owed, d)
  }

  ghost predicate Exact(x: Shared) {
    x.s.ioBufsInUse == Wrap(x.owed)
  }

  ghost predicate ExactUpTo(xs: seq<Shared>, n: nat)
    requires n < |xs|
  {
    forall i :: 0 <= i <= n ==> Exact(xs[i])
  }

  lemma WrapSum(a: int, b: int, u: int)
    ensures Wrap(Wrap(a) + u) == Wrap(b + u) <==> Wrap(b - a) == 0
  {
  }

  /** A store keeps the counter as short as it was if and only if it is undisturbed. */
  lemma ShortStep(xs: seq<Shared>, steps: seq<CounterStep>, i: nat, d: int)
    requires i < |steps| && i + 1 < |xs| && Counts(xs[i], steps[i], Store(xs, steps, i), xs[i + 1]) && Short(xs[i], d)
    ensures Short(xs[i + 1], d) <==> Undisturbed(xs, steps, i)
    ensures xs[i + 1].s.ioBufsInUse == Says(xs[i + 1].owed, d) ==> Short(xs[i + 1], d)
  {
    if Store(xs, steps, i).Some? {
      var u := Store(xs, steps, i).value;
      WrapSum(xs[i].loaded[u.0].owed - d, xs[i].owed - d, u.1);
    }
  }

  lemma {:induction false} ShortStays(c: Config, disk: Bytes, xs: seq<Shared>, steps: seq<CounterStep>,
                                      i: nat, j: nat, d: int)
    requires Run(c, disk, xs, steps) && i <= j <= |steps| && Short(xs[i], d) && UndisturbedOver(xs, steps, i, j)
    ensures Short(xs[j], d)
    decreases j - i
  {
    if i < j {
      StepCounts(c, disk, xs, steps, i);
      assert Undisturbed(xs, steps, i);
      ShortStep(xs, steps, i, d);
      ShortStays(c, disk, xs, steps, i + 1, j, d);
    }
  }

  lemma OneMoreUndisturbed(xs: seq<Shared>, steps: seq<CounterStep>, n: nat)
    requires n < |steps| < |xs| && UndisturbedOver(xs, steps, 0, n) && Undisturbed(xs, steps, n)
    ensures UndisturbedOver(xs, steps, 0, n + 1)
  {
  }

  lemma {:induction false} ExactUntil(c: Config, disk: Bytes, xs: seq<Shared>, steps: seq<CounterStep>, n: nat)
    requires Run(c, disk, xs, steps) && n <= |steps| && ExactUpTo(xs, n)
    ensures Short(xs[n], 0) && UndisturbedOver(xs, steps, 0, n)
  {
    if n > 0 {
      ExactUntil(c, disk, xs, steps, n - 1);
      StepCounts(c, disk, xs, steps, n - 1);
      assert Exact(xs[n]);
      ShortStep(xs, steps, n - 1, 0);
      OneMoreUndisturbed(xs, steps, n - 1);
    }
  }

  /** The counter is exact in every state of a run if and only if every store is undisturbed. */
  lemma CounterExactIff(c: Config, disk: Bytes, xs: seq<Shared>, steps: seq<CounterStep>)
    requires Run(c, disk, xs, steps)
    ensures ExactUpTo(xs, |steps|) <==> UndisturbedOver(xs, steps, 0, |steps|)
  {
    if ExactUpTo(xs, |steps|) { ExactUntil(c, disk, xs, steps, |steps|); }
    if UndisturbedOver(xs, steps, 0, |steps|) {
      forall i | 0 <= i <= |steps| ensures Exact(xs[i]) {
        ShortStays(c, disk, xs, steps, 0, i, 0);
      }
    }
  }

  /** What was stored between steps l and i. */
  function Changes(xs: seq<Shared>, steps: seq<CounterStep>, l: nat, i: nat): (d: int)
    requires l <= i <= |steps| && |steps| < |xs|
    decreases i - l
  {
    if l == i then 0 else Changes(xs, steps, l, i - 1) + Change(xs, steps, i - 1)
  }

  /** Thread t neither loads nor stores at step i. */
  predicate Idles(xs: seq<Shared>, steps: seq<CounterStep>, i: nat, t: Thread)
    requires i < |steps| && i < |xs|
  {
    steps[i] != Load(t) && (Store(xs, steps, i).Some? ==> Store(xs, steps, i).value.0 != t)
  }

  lemma OwedNext(c: Config, disk: Bytes, xs: seq<Shared>, steps: seq<CounterStep>, l: nat, i: nat, t: Thread)
    requires Run(c, disk, xs, steps) && l <= i < |steps| && t in xs[i].loaded && Idles(xs, steps, i, t)
    requires xs[i].owed == xs[l].owed + Changes(xs, steps, l, i)
    ensures xs[i + 1].owed == xs[l].owed + Changes(xs, steps, l, i + 1)
    ensures t in xs[i + 1].loaded && xs[i + 1].loaded[t] == xs[i].loaded[t]
  {
    StepCounts(c, disk, xs, steps, i);
  }

  lemma {:induction false} OwedMoves(c: Config, disk: Bytes, xs: seq<Shared>, steps: seq<CounterStep>,
                                     l: nat, i: nat, t: Thread)
    requires Run(c, disk, xs, steps) && l <= i <= |steps| && t in xs[l].loaded
    requires forall j :: l <= j < i ==> Idles(xs, steps, j, t)
    ensures xs[i].owed == xs[l].owed + Changes(xs, steps, l, i)
    ensures t in xs[i].loaded && xs[i].loaded[t] == xs[l].loaded[t]
    decreases i - l
  {
    if l < i {
      OwedMoves(c, disk, xs, steps, l, i - 1, t);
      assert Idles(xs, steps, i - 1, t);
      OwedNext(c, disk, xs, steps, l, i - 1, t);
    }
  }

  /** A store is undisturbed if and only if the changes stored since its load add up to
      nothing; in particular when there are none. */
  lemma UndisturbedIff(c: Config, disk: Bytes, xs: seq<Shared>, steps: seq<CounterStep>, l: nat, i: nat, t: Thread)
    requires Run(c, disk, xs, steps) && l < i < |steps| && steps[l] == Load(t)
    requires Store(xs, steps, i).Some? && Store(xs, steps, i).value.0 == t
    requires forall j :: l < j < i ==> Idles(xs, steps, j, t)
    ensures Undisturbed(xs, steps, i) <==> Wrap(Changes(xs, steps, l + 1, i)) == 0
  {
    StepCounts(c, disk, xs, steps, l);
    OwedMoves(c, disk, xs, steps, l + 1, i, t);
  }

  // ---- What lost updates do to the limit ----

  /** How much the engine may take on with a counter that is d short. */
  lemma CanQueueShort(c: Config, x: Shared, d: int, bound: int)
    requires Short(x, d) && 0 <= x.owed <= bound && c.maxIoBufs + d <= bound < 0x1_0000_0000 + d
    ensures CanQueue(c, x.s) > 0 ==> x.owed + CanQueue(c, x.s) <= bound
  {
  }

  /** With a counter that is d short, the buffers in use and taken on stay within the limit
      plus d, as long as no more updates are lost. */
  lemma {:induction false} LimitPlusShort(c: Config, disk: Bytes, xs: seq<Shared>, steps: seq<CounterStep>,
                                          i: nat, j: nat, d: int, bound: int)
    requires Run(c, disk, xs, steps) && i <= j <= |steps| && Short(xs[i], d) && UndisturbedOver(xs, steps, i, j)
    requires c.maxIoBufs + d <= bound < 0x1_0000_0000 + d && xs[i].owed + |xs[i].s.pipe.engineBatch| <= bound
    ensures xs[j].owed + |xs[j].s.pipe.engineBatch| <= bound
    decreases j - i
  {
    if i < j {
      StepCounts(c, disk, xs, steps, i);
      assert Undisturbed(xs, steps, i);
      ShortStep(xs, steps, i, d);
      CanQueueShort(c, xs[i], d, bound);
      LimitPlusShort(c, disk, xs, steps, i + 1, j, d, bound);
    }
  }

  /** As long as every store is undisturbed the buffers in use stay within the limit. */
  lemma ExactIsBounded(c: Config, disk: Bytes, xs: seq<Shared>, steps: seq<CounterStep>, n: nat)
    requires Run(c, disk, xs, steps) && n <= |steps| && UndisturbedOver(xs, steps, 0, n)
    requires c.maxIoBufs < 0x1_0000_0000
    ensures 0 <= |xs[n].s.pipe.device| <= xs[n].owed == xs[n].s.ioBufsInUse <= c.maxIoBufs
  {
    LimitPlusShort(c, disk, xs, steps, 0, n, 0, c.maxIoBufs);
    ShortStays(c, disk, xs, steps, 0, n, 0);
    SoundAlways(c, disk, xs, steps, n);
  }

  /** And that is how far it goes: d increments lost let the engine take on d more than the
      limit. */
  lemma LimitIsExceeded(c: Config, x: Shared, d: nat, n: nat)
    requires Short(x, d) && d <= x.owed < c.maxIoBufs + d && c.maxIoBufs < 0x1_0000_0000
    requires x.s.pipe.engineBatch == [] && n == c.maxIoBufs + d - x.owed && n <= |x.s.pipe.engineRing| && n <= 1024
    ensures Possible(c, x.s, EngineDequeue(n)) && x.owed + n == c.maxIoBufs + d
  {
  }

  /** The counter is at the limit or above for as many buffers in use as there are now, or
      fewer. */
  ghost predicate Stuck(c: Config, x: Shared, d: int) {
    Short(x, d) && x.s.pipe.engineBatch == [] && forall n :: 0 <= n <= x.owed ==> Says(n, d) >= c.maxIoBufs
  }

  /** Then the engine has stopped for good: as long as no more updates are lost it takes
      nothing on, whatever arrives. */
  lemma {:induction false} StopsForGood(c: Config, disk: Bytes, xs: seq<Shared>, steps: seq<CounterStep>,
                                        i: nat, j: nat, d: int)
    requires Run(c, disk, xs, steps) && i <= j <= |steps| && Stuck(c, xs[i], d) && UndisturbedOver(xs, steps, i, j)
    ensures Stuck(c, xs[j], d) && CanQueue(c, xs[j].s) == 0 && xs[j].owed <= xs[i].owed
    decreases j - i
  {
    SoundAlways(c, disk, xs, steps, i);
    assert CanQueue(c, xs[i].s) == 0 by { assert Says(xs[i].owed, d) >= c.maxIoBufs; }
    if i < j {
      StepCounts(c, disk, xs, steps, i);
      assert Undisturbed(xs, steps, i);
      ShortStep(xs, steps, i, d);
      StopsForGood(c, disk, xs, steps, i + 1, j, d);
    }
  }

  /** That happens when increments were lost and fewer buffers than those are in use, and when
      as many decrements were lost as the limit. */
  lemma StuckWhen(c: Config, x: Shared, d: int)
    requires Short(x, d) && 0 <= x.owed && x.s.pipe.engineBatch == []
    requires || (x.owed < d && d + c.maxIoBufs <= 0x1_0000_0000)
             || (c.maxIoBufs <= -d && x.owed - d < 0x1_0000_0000)
    ensures Stuck(c, x, d)
  {
    forall n | 0 <= n <= x.owed ensures Says(n, d) >= c.maxIoBufs {
      if x.owed < d { assert Says(n, d) == n - d + 0x1_0000_0000; } else { assert Says(n, d) == n - d; }
    }
  }

  // ---- Runs that lose an update ----

  /** The counter as it is, and nothing loaded. */
  function Settled(s: State): (x: Shared) {
    Shared(s, s.ioBufsInUse, map[])
  }

  lemma LiftQuiet(c: Config, s: State, p: Step, t: State)
    requires OffloadRuns.Takes(c, s, p, t, true) && Touch(s, p).None?
    ensures Paths.Leads(Relation(c), Settled(s), [Do(p)], Settled(t))
  {
    A.CounterStep(c, s, p);
    Paths.OneStep(Relation(c), Settled(s), Do(p), Settled(t));
  }

  lemma StoredAtOnce(c: Config, s: State, p: Step, t: State, th: Thread)
    requires OffloadRuns.Takes(c, s, p, t, true) && Touch(s, p).Some? && Touch(s, p).value.0 == th
    requires 0 <= t.ioBufsInUse < 0x1_0000_0000
    ensures Advances(c, Shared(s, s.ioBufsInUse, map[th := Loaded(s.ioBufsInUse, s.ioBufsInUse)]), Do(p), Settled(t))
  {
    var z := Shared(s, s.ioBufsInUse, map[th := Loaded(s.ioBufsInUse, s.ioBufsInUse)]);
    A.CounterStep(c, s, p);
    AfterShape(c, z, p);
    StoredShape(After(c, z, p), t, z.loaded, th);
  }

  lemma StoredShape(x: Shared, t: State, loaded: map<Thread, Loaded>, th: Thread)
    requires x.s == t.(ioBufsInUse := x.s.ioBufsInUse) && x.s.ioBufsInUse == t.ioBufsInUse == x.owed
    requires loaded.Keys == {th} && x.loaded == loaded - {th}
    ensures x == Settled(t)
  {
    assert x.loaded == map[];
  }

  lemma LoadLeads(c: Config, x: Shared, th: Thread, y: Shared)
    requires th !in x.loaded && y == x.(loaded := x.loaded[th := Loaded(x.s.ioBufsInUse, x.owed)])
    ensures Paths.Leads(Relation(c), x, [Load(th)], y)
  {
    Paths.OneStep(Relation(c), x, Load(th), y);
  }

  /** A pipeline step with its load right before it. */
  lemma LiftOne(c: Config, s: State, p: Step, t: State) returns (steps: seq<CounterStep>)
    requires OffloadRuns.Takes(c, s, p, t, true) && 0 <= t.ioBufsInUse < 0x1_0000_0000
    ensures Paths.Leads(Relation(c), Settled(s), steps, Settled(t))
  {
    if Touch(s, p).None? {
      LiftQuiet(c, s, p, t);
      steps := [Do(p)];
    } else {
      var x, th := Settled(s), Touch(s, p).value.0;
      var z := x.(loaded := map[th := Loaded(s.ioBufsInUse, s.ioBufsInUse)]);
      assert x.loaded[th := Loaded(s.ioBufsInUse, s.ioBufsInUse)] == z.loaded;
      LoadLeads(c, x, th, z);
      StoredAtOnce(c, s, p, t, th);
      Paths.OneStep(Relation(c), z, Do(p), Settled(t));
      Paths.Then(Relation(c), x, [Load(th)], z, [Do(p)], Settled(t));
      steps := [Load(th)] + [Do(p)];
    }
  }

  lemma {:induction false} Lift(c: Config, states: seq<State>, ps: seq<Step>) returns (steps: seq<CounterStep>)
    requires Paths.Path(OffloadRuns.Relation(c, true), states, ps)
    requires forall i :: 0 <= i < |states| ==> 0 <= states[i].ioBufsInUse < 0x1_0000_0000
    ensures Paths.Leads(Relation(c), Settled(states[0]), steps, Settled(states[|ps|]))
    decreases |ps|
  {
    if ps == [] {
      steps := [];
      Paths.Stay(Relation(c), Settled(states[0]));
    } else {
      var n := |ps| - 1;
      forall i | 0 <= i < n
        ensures OffloadRuns.Relation(c, true)(states[..n + 1][i], ps[..n][i], states[..n + 1][i + 1])
      {
        assert OffloadRuns.Relation(c, true)(states[i], ps[i], states[i + 1]);
      }
      var a := Lift(c, states[..n + 1], ps[..n]);
      assert OffloadRuns.Relation(c, true)(states[n], ps[n], states[n + 1]);
      var b := LiftOne(c, states[n], ps[n], states[n + 1]);
      Paths.Then(Relation(c), Settled(states[0]), a, Settled(states[n]), b, Settled(states[n + 1]));
      steps := a + b;
    }
  }

  lemma MeetingLifted() returns (steps: seq<CounterStep>)
    ensures Paths.Leads(Relation(W.Small(1)), Settled(Initial(W.BLANK)), steps, Settled(W.Meeting()))
  {
    var c := W.Small(1);
    var ps := W.MeetingLeads();
    var states: seq<State> :| Paths.Path(OffloadRuns.Relation(c, true), states, ps)
                  && states[0] == Initial(W.BLANK) && states[|ps|] == W.Meeting();
    OffloadRuns.PathIsRun(c, W.BLANK, states, ps);
    forall i | 0 <= i < |states| ensures 0 <= states[i].ioBufsInUse < 0x1_0000_0000 {
      BuffersBounded(c, W.BLANK, states, ps, i);
    }
    steps := Lift(c, states, ps);
  }

  /** Both threads have loaded the counter n. */
  function BothLoaded(s: State, n: int): (x: Shared) {
    Shared(s, n, map[FinalizerThread := Loaded(n, n), DeviceThread := Loaded(n, n)])
  }

  lemma BothLoad(c: Config, s: State)
    ensures Paths.Leads(Relation(c), Settled(s), [Load(FinalizerThread), Load(DeviceThread)],
                        BothLoaded(s, s.ioBufsInUse))
  {
    var n := s.ioBufsInUse;
    var x, y := Settled(s), Shared(s, n, map[FinalizerThread := Loaded(n, n)]);
    assert x.loaded[FinalizerThread := Loaded(n, n)] == y.loaded;
    assert y.loaded[DeviceThread := Loaded(n, n)] == BothLoaded(s, n).loaded;
    LoadLeads(c, x, FinalizerThread, y);
    LoadLeads(c, y, DeviceThread, BothLoaded(s, n));
    Paths.Then(Relation(c), x, [Load(FinalizerThread)], y, [Load(DeviceThread)], BothLoaded(s, n));
    assert [Load(FinalizerThread)] + [Load(DeviceThread)] == [Load(FinalizerThread), Load(DeviceThread)];
  }

  /** A step that stores. */
  lemma StoreLeads(c: Config, x: Shared, p: Step, t: Thread)
    requires Enabled(c, x.s, p) && Defined(c, x.s, p) && Touch(x.s, p).Some? && Touch(x.s, p).value.0 == t
    requires t in x.loaded
    ensures Paths.Leads(Relation(c), x, [Do(p)], After(c, x, p))
    ensures After(c, x, p).s.ioBufsInUse == Wrap(x.loaded[t].counter + A.Delta(x.s, p))
    ensures After(c, x, p).owed == x.owed + A.Delta(x.s, p) && After(c, x, p).loaded == x.loaded - {t}
  {
    Paths.OneStep(Relation(c), x, Do(p), After(c, x, p));
  }

  /** What the two threads find when they meet, whatever the counter: a read to finalize, and
      a write to submit. */
  ghost predicate BothReady(c: Config, s: State) {
    && s.pipe.finBatch == [1] && Known(s, 1) && s.rqsts[1].op == GET && s.rqsts[1].size <= |s.rqsts[1].buff|
    && OffloadRuns.Transferable(c, s, 2, 1, []) && s.rqsts[2].op == UPDATE
  }

  lemma MeetingIsReady()
    ensures BothReady(W.Small(1), W.Meeting()) && W.Meeting().ioBufsInUse == 1
  {
    var c, s := W.Small(1), W.Meeting();
    forall o: Owner | Live(s.index, s.stored, s.rqsts, s.pipe, o)
      ensures Disjoint(c.extent(1, 1), ExtentOf(c, s.index, s.rqsts, o))
    {
      assert o == OfKey(W.K1);
    }
  }

  lemma FinalizerReady(c: Config, s: State)
    requires s.pipe.finBatch == [1] && Known(s, 1) && s.rqsts[1].op == GET && s.rqsts[1].size <= |s.rqsts[1].buff|
    ensures Enabled(c, s, FinProcess) && Defined(c, s, FinProcess)
    ensures Touch(s, FinProcess) == Some((FinalizerThread, -1))
  {
  }

  lemma DeviceReady(c: Config, s: State)
    requires OffloadRuns.Transferable(c, s, 2, 1, []) && s.rqsts[2].op == UPDATE
    ensures var p := EngineProcess(1, []);
            Enabled(c, s, p) && Defined(c, s, p) && Touch(s, p) == Some((DeviceThread, 1))
  {
  }

  /** Finalizing the read leaves the write to submit. */
  lemma StillToSubmit(c: Config, s: State, n: int)
    requires BothReady(c, s)
    ensures var t := FinOne(c, s).(ioBufsInUse := n);
            OffloadRuns.Transferable(c, t, 2, 1, []) && t.rqsts[2].op == UPDATE
  {
    var t := FinOne(c, s).(ioBufsInUse := n);
    forall o: Owner | Live(t.index, t.stored, t.rqsts, t.pipe, o)
      ensures Disjoint(c.extent(1, t.rqsts[2].size), ExtentOf(c, t.index, t.rqsts, o))
    {
      assert Live(s.index, s.stored, s.rqsts, s.pipe, o);
    }
  }

  /** The finalizer stores first, and its decrement is lost. */
  lemma DecrementIsLost(c: Config, s: State) returns (steps: seq<CounterStep>, y: Shared)
    requires BothReady(c, s) && s.ioBufsInUse == 1
    ensures Paths.Leads(Relation(c), Settled(s), steps, y) && y.s.ioBufsInUse == 2 && y.owed == 1
  {
    var x2 := BothLoaded(s, 1);
    BothLoad(c, s);
    FinalizerReady(c, s);
    StoreLeads(c, x2, FinProcess, FinalizerThread);
    var x3 := After(c, x2, FinProcess);
    StillToSubmit(c, s, 0);
    DeviceReady(c, x3.s);
    StoreLeads(c, x3, EngineProcess(1, []), DeviceThread);
    y := After(c, x3, EngineProcess(1, []));
    var b := [Load(FinalizerThread), Load(DeviceThread)];
    Paths.Then(Relation(c), Settled(s), b, x2, [Do(FinProcess)], x3);
    Paths.Then(Relation(c), Settled(s), b + [Do(FinProcess)], x3, [Do(EngineProcess(1, []))], y);
    steps := b + [Do(FinProcess)] + [Do(EngineProcess(1, []))];
  }

  /** A run that loses a decrement: the finalizer takes one off between the device thread's
      load and its store. The counter says that two buffers are in use, the limit here,
      while there is one. */
  lemma LostUpdateRun() returns (xs: seq<Shared>, steps: seq<CounterStep>)
    ensures Run(W.Small(1), W.BLANK, xs, steps)
    ensures xs[|steps|].s.ioBufsInUse == 2 && xs[|steps|].owed == 1
  {
    MeetingIsReady();
    var a := MeetingLifted();
    var b, y := DecrementIsLost(W.Small(1), W.Meeting());
    xs := Paths.Through(Relation(W.Small(1)), Settled(Initial(W.BLANK)), a, Settled(W.Meeting()), b, y);
    steps := a + b;
  }

  /** Submitting the write leaves the read to finalize. */
  lemma StillToFinalize(c: Config, s: State, n: int)
    requires BothReady(c, s)
    ensures var t := EngineOne(c, s, 1, []).(ioBufsInUse := n);
            && t.pipe.finBatch == [1] && Known(t, 1) && t.rqsts[1] == s.rqsts[1]
            && t.pipe.device == [2] && t.pipe.engineBatch == [] && Known(t, 2)
            && t.rqsts[2] == BuiltRqst(s, s.rqsts[2], 1, []) && t.disk == s.disk
  {
  }

  /** The write completes. */
  lemma WriteReady(c: Config, s: State, junk: Bytes)
    requires s.pipe.device == [2] && 2 in s.rqsts && s.rqsts[2].op == UPDATE
    requires TransferFits(c, s.disk, s.rqsts[2], junk)
    ensures var p := Complete(0, true, junk);
            Enabled(c, s, p) && Defined(c, s, p) && Touch(s, p) == Some((DeviceThread, -1))
  {
  }

  lemma SubmittedFits(s: State)
    requires BothReady(W.Small(1), s) && |s.rqsts[2].buff| == 0 && s.rqsts[2].size == 1
    ensures TransferFits(W.Small(1), s.disk, BuiltRqst(s, s.rqsts[2], 1, []), [9])
  {
  }

  lemma DeviceStores(c: Config, s: State) returns (y: Shared)
    requires BothReady(c, s)
    ensures Paths.Leads(Relation(c), BothLoaded(s, 1), [Do(EngineProcess(1, []))], y)
    ensures y == Shared(EngineOne(c, s, 1, []).(ioBufsInUse := 2), 2, map[FinalizerThread := Loaded(1, 1)])
  {
    DeviceReady(c, s);
    StoreLeads(c, BothLoaded(s, 1), EngineProcess(1, []), DeviceThread);
    AfterShape(c, BothLoaded(s, 1), EngineProcess(1, []));
    y := After(c, BothLoaded(s, 1), EngineProcess(1, []));
    assert y.loaded == map[FinalizerThread := Loaded(1, 1)];
  }

  lemma FinalizerStores(c: Config, x: Shared) returns (y: Shared)
    requires x.loaded == map[FinalizerThread := Loaded(1, 1)] && x.owed == 2 && x.s.pipe.finBatch == [1]
    requires Known(x.s, 1) && x.s.rqsts[1].op == GET && x.s.rqsts[1].size <= |x.s.rqsts[1].buff|
    ensures Paths.Leads(Relation(c), x, [Do(FinProcess)], y)
    ensures y.s == FinOne(c, x.s).(ioBufsInUse := 0) && y.owed == 1 && y.loaded == map[]
  {
    FinalizerReady(c, x.s);
    StoreLeads(c, x, FinProcess, FinalizerThread);
    AfterShape(c, x, FinProcess);
    y := After(c, x, FinProcess);
    assert y.loaded == map[];
  }

  /** The device thread stores first, and its increment is lost. */
  lemma IncrementIsLost(c: Config, s: State) returns (steps: seq<CounterStep>, y: Shared)
    requires BothReady(c, s) && s.ioBufsInUse == 1
    ensures Paths.Leads(Relation(c), Settled(s), steps, y) && y.s.ioBufsInUse == 0 && y.owed == 1 && y.loaded == map[]
    ensures y.s.pipe.device == [2] && y.s.pipe.engineBatch == [] && y.s.disk == s.disk
    ensures 2 in y.s.rqsts && y.s.rqsts[2] == BuiltRqst(s, s.rqsts[2], 1, [])
  {
    var x2 := BothLoaded(s, 1);
    BothLoad(c, s);
    var x3 := DeviceStores(c, s);
    StillToFinalize(c, s, 2);
    y := FinalizerStores(c, x3);
    var b := [Load(FinalizerThread), Load(DeviceThread)];
    Paths.Then(Relation(c), Settled(s), b, x2, [Do(EngineProcess(1, []))], x3);
    Paths.Then(Relation(c), Settled(s), b + [Do(EngineProcess(1, []))], x3, [Do(FinProcess)], y);
    steps := b + [Do(EngineProcess(1, []))] + [Do(FinProcess)];
  }

  /** A run that loses an increment: the finalizer stores what it loaded before the device
      thread's increment. When the write completes the counter wraps, and with nothing in
      use the engine has stopped for good. */
  lemma LostIncrementRun() returns (xs: seq<Shared>, steps: seq<CounterStep>)
    ensures Run(W.Small(1), W.BLANK, xs, steps)
    ensures var x := xs[|steps|];
            x.s.ioBufsInUse == 0xFFFF_FFFF && x.owed == 0 && Stuck(W.Small(1), x, 1)
  {
    var c, s := W.Small(1), W.Meeting();
    MeetingIsReady();
    var a := MeetingLifted();
    var b, y := IncrementIsLost(c, s);
    SubmittedFits(s);
    var e, z := WriteEnds(c, y);
    Paths.Then(Relation(c), Settled(s), b, y, e, z);
    xs := Paths.Through(Relation(c), Settled(Initial(W.BLANK)), a, Settled(s), b + e, z);
    steps := a + (b + e);
    StuckWhen(c, z, 1);
  }

  lemma WriteEnds(c: Config, x: Shared) returns (steps: seq<CounterStep>, x': Shared)
    requires x.loaded == map[] && x.s.ioBufsInUse == 0 && x.owed == 1 && x.s.pipe.engineBatch == []
    requires x.s.pipe.device == [2] && 2 in x.s.rqsts && x.s.rqsts[2].op == UPDATE
    requires TransferFits(c, x.s.disk, x.s.rqsts[2], [9])
    ensures Paths.Leads(Relation(c), x, steps, x')
    ensures x'.s.ioBufsInUse == 0xFFFF_FFFF && x'.owed == 0 && x'.loaded == map[] && x'.s.pipe.engineBatch == []
  {
    var y := x.(loaded := map[DeviceThread := Loaded(0, 1)]);
    assert x.loaded[DeviceThread := Loaded(0, 1)] == y.loaded;
    LoadLeads(c, x, DeviceThread, y);
    WriteReady(c, y.s, [9]);
    StoreLeads(c, y, Complete(0, true, [9]), DeviceThread);
    x' := After(c, y, Complete(0, true, [9]));
    A.CounterStep(c, y.s, Complete(0, true, [9]));
    Paths.Then(Relation(c), x, [Load(DeviceThread)], y, [Do(Complete(0, true, [9]))], x');
    steps := [Load(DeviceThread)] + [Do(Complete(0, true, [9]))];
  }
}
