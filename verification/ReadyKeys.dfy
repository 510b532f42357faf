/** The queue of ready primary keys, and the rollback of a Put it refuses
    (lib/primary/PrimaryKeyBase.cpp, lib/primary/PrimaryKeyNextQueue.cpp,
    lib/core/KVStore.cpp). */
module ReadyKeys {
  import opened ValueIndex

  // ---- Where the primary key is ----

  datatype Field = Field(size: nat, isPrimary: bool)

  datatype Layout = Layout(keySize: nat, pKeyOffset: nat, pKeySize: nat)

  function Total(fields: seq<Field>): (n: nat) {
    if fields == [] then 0 else Total(fields[..|fields| - 1]) + fields[|fields| - 1].size
  }

  /** The last primary field; 0 and 0 without one. */
  ghost predicate LaidOut(fields: seq<Field>, l: Layout) {
    && l.keySize == Total(fields)
    && if exists i :: 0 <= i < |fields| && fields[i].isPrimary then
         exists i :: 0 <= i < |fields| && fields[i].isPrimary && l.pKeySize == fields[i].size
             && l.pKeyOffset == Total(fields[..i])
                     && forall j :: i < j < |fields| ==> !fields[j].isPrimary
       else l.pKeySize == 0 && l.pKeyOffset == 0
  }

  /** The constructor's loop; the primary field lies inside the key. */
  method ReadLayout(fields: seq<Field>) returns (l: Layout)
    ensures LaidOut(fields, l) && l.pKeyOffset + l.pKeySize <= l.keySize
  {
    l := Layout(0, 0, 0);
    ghost var last := -1;
    for i := 0 to |fields|
      invariant l.keySize == Total(fields[..i]) && l.pKeyOffset + l.pKeySize <= l.keySize
      invariant -1 <= last < i && forall j :: last < j < i ==> !fields[j].isPrimary
      invariant last == -1 ==> l.pKeySize == 0 && l.pKeyOffset == 0
      invariant last >= 0 ==>
                  fields[last].isPrimary && l.pKeySize == fields[last].size
                  && l.pKeyOffset == Total(fields[..last])
    {
      assert fields[..i + 1][..i] == fields[..i];
      if fields[i].isPrimary {
        l := l.(pKeySize := fields[i].size, pKeyOffset := l.keySize);
        last := i;
      }
      l := l.(keySize := l.keySize + fields[i].size);
    }
    assert fields[..|fields|] == fields;
  }

  predicate LayoutOk(l: Layout) {
    l.keySize == 8 && l.pKeyOffset + l.pKeySize <= 8
  }

  /** What `_createPKeyBuff` copies out. */
  function Primary(l: Layout, k: Key): (p: Bytes)
    requires LayoutOk(l)
    ensures |p| == l.pKeySize
  {
    k[l.pKeyOffset..l.pKeyOffset + l.pKeySize]
  }

  /** The key `dequeueNext` hands out: the primary field in place, zeros around it. */
  function Restored(l: Layout, p: Bytes): (k: Key)
    requires LayoutOk(l) && |p| == l.pKeySize
  {
    seq(8, i => if l.pKeyOffset <= i < l.pKeyOffset + l.pKeySize then p[i - l.pKeyOffset] else 0)
  }

  lemma PrimarySurvives(l: Layout, p: Bytes)
    requires LayoutOk(l) && |p| == l.pKeySize
    ensures Primary(l, Restored(l, p)) == p
  {
  }

  /** The handed-out key is the key that was put exactly when that one had zeros elsewhere. */
  lemma RestoredIffZeros(l: Layout, k: Key)
    requires LayoutOk(l)
    ensures Restored(l, Primary(l, k)) == k <==>
              forall i :: 0 <= i < 8 && !(l.pKeyOffset <= i < l.pKeyOffset + l.pKeySize) ==> k[i] == 0
  {
    var r := Restored(l, Primary(l, k));
    assert forall i :: l.pKeyOffset <= i < l.pKeyOffset + l.pKeySize ==> r[i] == k[i];
    if forall i :: 0 <= i < 8 && !(l.pKeyOffset <= i < l.pKeyOffset + l.pKeySize) ==> k[i] == 0 {
      assert forall i :: 0 <= i < 8 ==> r[i] == k[i];
    }
  }

  // ---- Put with its rollback ----

  datatype State = State(index: Index, ready: seq<Bytes>)

  datatype Outcome = Done | NotReserved | QueueFull

  /** `local` is `isLocal` as a function of the primary field. */
  datatype Config = Config(layout: Layout, capacity: nat, local: Bytes -> bool)

  ghost predicate ConfigOk(c: Config) {
    LayoutOk(c.layout)
  }

  /** `enqueueNext`: keys that are not local are skipped. */
  function Enqueue(c: Config, ready: seq<Bytes>, k: Key): (r: (seq<Bytes>, bool))
    requires LayoutOk(c.layout)
  {
    var p := Primary(c.layout, k);
    if !c.local(p) then (ready, true)
    else if |ready| < c.capacity then (ready + [p], true)
    else (ready, false)
  }

  function StorePut(c: Config, s: State, k: Key): (r: (State, Outcome))
    requires LayoutOk(c.layout)
  {
    var (index, a) := Put(s.index, k);
    if a != Ok then (s, NotReserved)
    else
      var (ready, ok) := Enqueue(c, s.ready, k);
      if ok then (State(index, ready), Done) else (s.(index := Remove(index, k).0), QueueFull)
  }

  predicate Visible(m: Index, k: Key) {
    Get(m, k).Found?
  }

  /** A Put that succeeds makes its key visible and no other; one that fails leaves the
      queue alone and hides its key. */
  lemma PutOutcome(c: Config, s: State, k: Key, other: Key)
    requires ConfigOk(c)
    ensures var (s', out) := StorePut(c, s, k);
            && (out == Done <==> k in s.index && (c.local(Primary(c.layout, k)) ==> |s.ready| < c.capacity))
            && (out == Done ==> Visible(s'.index, k))
            && (out != Done ==> !Visible(s'.index, k))
            && (out != Done ==> s'.ready == s.ready)
            && (other != k ==> Get(s'.index, other) == Get(s.index, other))
  {
  }

  /** The rollback restores what readers saw if and only if the key was not visible before:
      putting a visible key again while the queue is full loses it. */
  lemma RollbackIsInvisibleIff(c: Config, s: State, k: Key)
    requires ConfigOk(c) && StorePut(c, s, k).1 == QueueFull
    ensures (forall x: Key :: Get(StorePut(c, s, k).0.index, x) == Get(s.index, x)) <==> !Visible(s.index, k)
  {
    var s' := StorePut(c, s, k).0;
    if !Visible(s.index, k) {
      forall x: Key ensures Get(s'.index, x) == Get(s.index, x) { PutOutcome(c, s, k, x); }
    } else {
      assert !Visible(s'.index, k);
    }
  }

  // ---- Runs ----

  datatype Op =
    | ReserveKey(k: Key, size: nat, g: Grant)
    | PutKey(k: Key)
    | TakeAny
    | RemoveKey(k: Key)

  /** A run's record: the keys whose Put succeeded and that are local, in order, and the
      keys handed out. */
  datatype Trace = Trace(s: State, put: seq<Bytes>, taken: seq<Key>)

  function Step(c: Config, t: Trace, op: Op): (t': Trace)
    requires LayoutOk(c.layout) && forall i :: 0 <= i < |t.s.ready| ==> |t.s.ready[i]| == c.layout.pKeySize
  {
    match op
    case ReserveKey(k, size, g) => t.(s := t.s.(index := Alloc(t.s.index, k, size, g).0))
    case PutKey(k) =>
      var (s', out) := StorePut(c, t.s, k);
      var p := Primary(c.layout, k);
      t.(s := s', put := if out == Done && c.local(p) then t.put + [p] else t.put)
    case TakeAny =>
      if t.s.ready == [] then t
      else t.(s := t.s.(ready := t.s.ready[1..]), taken := t.taken + [Restored(c.layout, t.s.ready[0])])
    case RemoveKey(k) => t.(s := t.s.(index := Remove(t.s.index, k).0))
  }

  ghost predicate Primaries(c: Config, ps: seq<Bytes>) {
    forall i :: 0 <= i < |ps| ==> |ps[i]| == c.layout.pKeySize
  }

  /** What was handed out, and what is still ready, are the successful local Puts in order. */
  ghost predicate Fifo(c: Config, t: Trace)
    requires ConfigOk(c)
  {
    && Primaries(c, t.s.ready) && |t.s.ready| <= c.capacity && |t.put| == |t.taken| + |t.s.ready|
    && (forall i :: 0 <= i < |t.s.ready| ==> t.put[|t.taken| + i] == t.s.ready[i])
    && (forall i :: 0 <= i < |t.taken| ==> Primary(c.layout, t.taken[i]) == t.put[i])
  }

  lemma StepKeepsFifo(c: Config, t: Trace, op: Op)
    requires ConfigOk(c) && Fifo(c, t)
    ensures Fifo(c, Step(c, t, op))
  {
    if op.TakeAny? && t.s.ready != [] { PrimarySurvives(c.layout, t.s.ready[0]); }
  }

  ghost predicate Run(c: Config, traces: seq<Trace>, ops: seq<Op>)
    requires ConfigOk(c)
  {
    && |traces| == |ops| + 1 && traces[0] == Trace(State(map[], []), [], [])
    && forall i :: 0 <= i < |ops| ==> Primaries(c, traces[i].s.ready) ==> traces[i + 1] == Step(c, traces[i], ops[i])
  }

  /** In every run the ready keys are handed out once each, in the order of the Puts that
      succeeded; a Put that was rolled back is never handed out. */
  lemma {:induction false} EveryRunHandsOutOnce(c: Config, traces: seq<Trace>, ops: seq<Op>, i: nat)
    requires ConfigOk(c) && Run(c, traces, ops) && i <= |ops|
    ensures Fifo(c, traces[i])
  {
    if i > 0 {
      EveryRunHandsOutOnce(c, traces, ops, i - 1);
      StepKeepsFifo(c, traces[i - 1], ops[i - 1]);
    }
  }

  /** Each time a key is asked for and not all were handed out, the next one is. */
  lemma TakesNext(c: Config, traces: seq<Trace>, ops: seq<Op>, i: nat)
    requires ConfigOk(c) && Run(c, traces, ops) && i < |ops| && ops[i].TakeAny?
    ensures var t, t' := traces[i], traces[i + 1];
            && t'.put == t.put && t'.s.index == t.s.index && |t.taken| <= |t.put|
            && (|t.taken| == |t.put| ==> t'.taken == t.taken)
            && (|t.taken| < |t.put| ==>
                  && |t.put[|t.taken|]| == c.layout.pKeySize
                  && t'.taken == t.taken + [Restored(c.layout, t.put[|t.taken|])])
  {
    EveryRunHandsOutOnce(c, traces, ops, i);
  }

  /** A run in which the rollback loses a key: it is put, fills a queue of one, and is put
      again. */
  lemma RollbackLosesKeyRun(c: Config, k: Key, size: nat, addr: nat) returns (traces: seq<Trace>, ops: seq<Op>)
    requires ConfigOk(c) && c.capacity == 1 && c.local(Primary(c.layout, k))
    ensures Run(c, traces, ops) && ops == [ReserveKey(k, size, Granted(addr)), PutKey(k), PutKey(k)]
    ensures Visible(traces[2].s.index, k) && !Visible(traces[3].s.index, k)
  {
    var p := Primary(c.layout, k);
    ops := [ReserveKey(k, size, Granted(addr)), PutKey(k), PutKey(k)];
    var t0 := Trace(State(map[], []), [], []);
    var t1 := Trace(State(map[k := Wrapper(EMPTY, Memory(addr), size, EMPTY)], []), [], []);
    var t2 := Trace(State(map[k := Wrapper(PMEM, Memory(addr), size, PMEM)], [p]), [p], []);
    var t3 := t2.(s := t2.s.(index := map[k := Wrapper(EMPTY, Memory(addr), size, PMEM)]));
    assert Step(c, t0, ops[0]) == t1;
    assert Step(c, t1, ops[1]) == t2;
    assert Step(c, t2, ops[2]) == t3;
    traces := [t0, t1, t2, t3];
  }

  // ---- The classes ----

  class PrimaryKeyNextQueue {
    const c: Config
    var readyKeys: seq<Bytes>

    ghost predicate Valid()
      reads this
    {
      ConfigOk(c) && Primaries(c, readyKeys) && |readyKeys| <= c.capacity
    }

    constructor (c: Config)
      requires ConfigOk(c)
      ensures Valid() && this.c == c && readyKeys == []
    {
      this.c := c;
      readyKeys := [];
    }

    method EnqueueNext(k: Key) returns (ok: bool)
      requires Valid()
      modifies this
      ensures Valid() && (readyKeys, ok) == Enqueue(c, old(readyKeys), k)
    {
      var p := Primary(c.layout, k);
      if !c.local(p) { return true; }
      if |readyKeys| >= c.capacity { return false; }
      readyKeys := readyKeys + [p];
      return true;
    }

    /** The key buffer is cleared and the primary field copied into place. */
    method DequeueNext(key: array<Byte>) returns (ok: bool)
      requires Valid() && key.Length == 8
      modifies this, key
      ensures Valid() && (ok <==> old(readyKeys) != [])
      ensures ok ==> readyKeys == old(readyKeys)[1..] && key[..] == Restored(c.layout, old(readyKeys)[0])
      ensures !ok ==> readyKeys == old(readyKeys) && key[..] == old(key[..])
    {
      if readyKeys == [] { return false; }
      var p := readyKeys[0];
      readyKeys := readyKeys[1..];
      for i := 0 to 8
        modifies key
        invariant forall j :: 0 <= j < i ==> key[j] == 0
      {
        key[i] := 0;
      }
      for i := 0 to c.layout.pKeySize
        modifies key
        invariant forall j :: 0 <= j < 8 ==>
                    key[j] == if c.layout.pKeyOffset <= j < c.layout.pKeyOffset + i then p[j - c.layout.pKeyOffset]
                        else 0
      {
        key[c.layout.pKeyOffset + i] := p[i];
      }
      return true;
    }
  }

  class KVStore {
    const pKey: PrimaryKeyNextQueue
    var index: Index

    ghost predicate Valid()
      reads this, pKey
    {
      pKey.Valid()
    }

    ghost function Abs(): State
      reads this, pKey
    {
      State(index, pKey.readyKeys)
    }

    constructor (c: Config)
      requires ConfigOk(c)
      ensures Valid() && fresh(pKey) && pKey.c == c && Abs() == State(map[], [])
    {
      pKey := new PrimaryKeyNextQueue(c);
      index := map[];
    }

    /** The tree first, then the queue; a queue that refuses takes the key out again. */
    method PutReserved(k: Key) returns (out: Outcome)
      requires Valid()
      modifies this, pKey
      ensures Valid() && (Abs(), out) == StorePut(pKey.c, old(Abs()), k)
    {
      var (after, a) := Put(index, k);
      if a != Ok { return NotReserved; }
      index := after;
      var ok := pKey.EnqueueNext(k);
      if !ok {
        index := Remove(index, k).0;
        return QueueFull;
      }
      return Done;
    }
  }
}
