/** The bounded buffer between producers and a blocking poller
    (lib/common/BlockingPoller.h): a circular container to whose front items are pushed,
    and an index that says how many at the front are unread. Reading never removes. Every
    operation holds the mutex, so a run is a sequence of operations in any order. */
module BoundedBuffers {
  import opened Basics

  datatype State<T> = State(container: seq<T>, unread: nat)

  /** `circular_buffer::push_front`: a full container drops its last item. */
  function PushedFront<T>(container: seq<T>, capacity: nat, x: T): (c: seq<T>)
    requires capacity > 0 && |container| <= capacity
  {
    if |container| == capacity then [x] + container[..capacity - 1] else [x] + container
  }

  predicate Fits<T>(s: State<T>, capacity: nat) {
    s.unread <= |s.container| <= capacity
  }

  /** `pushFront`: whether it was accepted, and what it leaves. */
  function Push<T>(s: State<T>, capacity: nat, x: T): (r: (State<T>, bool))
    requires Fits(s, capacity)
  {
    if s.unread < capacity then (State(PushedFront(s.container, capacity, x), s.unread + 1), true) else (s, false)
  }

  /** The unread items, the oldest first. */
  function Queue<T>(s: State<T>): (q: seq<T>)
    requires s.unread <= |s.container|
    ensures |q| == s.unread
  {
    seq(s.unread, i requires 0 <= i < s.unread => s.container[s.unread - 1 - i])
  }

  /** Reading n items only moves the index. */
  function Advance<T>(s: State<T>, n: nat): (s': State<T>)
    requires n <= s.unread
  {
    s.(unread := s.unread - n)
  }

  // ---- One operation ----

  lemma PushQueues<T>(s: State<T>, capacity: nat, x: T)
    requires Fits(s, capacity)
    ensures Fits(Push(s, capacity, x).0, capacity)
    ensures Push(s, capacity, x).1 <==> |Queue(s)| < capacity
    ensures Queue(Push(s, capacity, x).0) == Queue(s) + if |Queue(s)| < capacity then [x] else []
  {
    var s' := Push(s, capacity, x).0;
    if s.unread < capacity {
      forall i | 0 <= i < s.unread ensures Queue(s')[i] == Queue(s)[i] {
        assert s'.container[s'.unread - 1 - i] == s.container[s.unread - 1 - i];
      }
    }
  }

  lemma AdvanceDequeues<T>(s: State<T>, n: nat, capacity: nat)
    requires Fits(s, capacity) && n <= s.unread
    ensures Fits(Advance(s, n), capacity) && Queue(Advance(s, n)) == Queue(s)[n..]
  {
  }

  // ---- Runs ----

  datatype Op<T> = DoPush(x: T) | DoPop | DoPopVector

  /** How many items a pop takes: one, or everything up to 1024; none when it times out. */
  function Taken<T>(s: State<T>, op: Op<T>): (n: nat)
    ensures n <= s.unread && n <= 1024
  {
    match op
    case DoPush(_) => 0
    case DoPop => if s.unread > 0 then 1 else 0
    case DoPopVector => if s.unread < 1024 then s.unread else 1024
  }

  /** What happened so far: the items accepted and the items handed out, in order. */
  datatype Trace<T> = Trace(s: State<T>, accepted: seq<T>, popped: seq<T>)

  function Step<T>(t: Trace<T>, capacity: nat, op: Op<T>): (t': Trace<T>)
    requires Fits(t.s, capacity)
  {
    match op
    case DoPush(x) =>
      var (s, ok) := Push(t.s, capacity, x);
      Trace(s, t.accepted + if ok then [x] else [], t.popped)
    case _ =>
      var n := Taken(t.s, op);
      Trace(Advance(t.s, n), t.accepted, t.popped + Queue(t.s)[..n])
  }

  ghost predicate Run<T(!new)>(capacity: nat, traces: seq<Trace<T>>, ops: seq<Op<T>>) {
    && |traces| == |ops| + 1 && traces[0] == Trace(State([], 0), [], [])
    && forall i :: 0 <= i < |ops| ==> Fits(traces[i].s, capacity) ==> traces[i + 1] == Step(traces[i], capacity, ops[i])
  }

  lemma StepKeepsFifo<T>(t: Trace<T>, capacity: nat, op: Op<T>)
    requires Fits(t.s, capacity) && t.popped + Queue(t.s) == t.accepted
    ensures var t' := Step(t, capacity, op); Fits(t'.s, capacity) && t'.popped + Queue(t'.s) == t'.accepted
  {
    match op
    case DoPush(x) => PushQueues(t.s, capacity, x);
    case _ =>
      var n := Taken(t.s, op);
      AdvanceDequeues(t.s, n, capacity);
      assert Queue(t.s) == Queue(t.s)[..n] + Queue(t.s)[n..];
  }

  /** In every run, whatever order producers and consumers come in: the items handed out,
      followed by those still unread, are exactly the items accepted, in order. None is
      lost, overwritten, duplicated or reordered, and no more than `capacity` wait. */
  lemma {:induction false} EveryRunIsFifo<T(!new)>(capacity: nat, traces: seq<Trace<T>>, ops: seq<Op<T>>, i: nat)
    requires Run(capacity, traces, ops) && i <= |ops|
    ensures Fits(traces[i].s, capacity) && traces[i].popped + Queue(traces[i].s) == traces[i].accepted
    ensures |Queue(traces[i].s)| <= capacity
  {
    if i > 0 {
      EveryRunIsFifo(capacity, traces, ops, i - 1);
      StepKeepsFifo(traces[i - 1], capacity, ops[i - 1]);
    }
  }

  /** A push is refused exactly when as many items as fit were accepted and not handed out. */
  lemma RefusedIffFull<T(!new)>(capacity: nat, traces: seq<Trace<T>>, ops: seq<Op<T>>, i: nat)
    requires Run(capacity, traces, ops) && i < |ops| && ops[i].DoPush?
    ensures traces[i + 1].accepted == traces[i].accepted <==> |traces[i].accepted| - |traces[i].popped| == capacity
  {
    EveryRunIsFifo(capacity, traces, ops, i);
    PushQueues(traces[i].s, capacity, ops[i].x);
  }

  function Min(a: nat, b: nat): (m: nat) {
    if a < b then a else b
  }

  /** In every run a pop hands out the oldest item accepted and not handed out yet, and only
      that one; a batch hands out all of them, or the oldest 1024. */
  lemma PopsTakeExactly<T(!new)>(capacity: nat, traces: seq<Trace<T>>, ops: seq<Op<T>>, i: nat)
    requires Run(capacity, traces, ops) && i < |ops| && !ops[i].DoPush?
    ensures var t, t' := traces[i], traces[i + 1];
            var most := if ops[i].DoPop? then 1 else 1024;
            && |t.popped| <= |t.accepted| && t'.accepted == t.accepted
            && t'.popped == t.accepted[..Min(|t.popped| + most, |t.accepted|)]
  {
    EveryRunIsFifo(capacity, traces, ops, i);
    EveryRunIsFifo(capacity, traces, ops, i + 1);
    var t, t' := traces[i], traces[i + 1];
    assert t' == Step(t, capacity, ops[i]);
    assert t'.popped == t'.accepted[..|t'.popped|];
  }

  // ---- The class ----

  class BoundedBuffer<T> {
    const capacity: nat
    var unread: nat
    var container: seq<T>

    ghost function Abs(): State<T>
      reads this
    {
      State(container, unread)
    }

    ghost predicate Valid()
      reads this
    {
      Fits(Abs(), capacity)
    }

    constructor (capacity: nat)
      ensures Valid() && this.capacity == capacity && Queue(Abs()) == []
    {
      this.capacity := capacity;
      unread, container := 0, [];
    }

    predicate IsNotEmpty()
      reads this
    {
      unread > 0
    }

    predicate IsNotFull()
      reads this
    {
      unread < capacity
    }

    method PushFront(item: T) returns (ok: bool)
      requires Valid()
      modifies this
      ensures Valid() && (Abs(), ok) == Push(old(Abs()), capacity, item)
    {
      if !IsNotFull() { return false; }
      container := PushedFront(container, capacity, item);
      unread := unread + 1;
      return true;
    }

    method PopBack() returns (item: Option<T>)
      requires Valid()
      modifies this
      ensures Valid() && Abs() == Advance(old(Abs()), Taken(old(Abs()), DoPop))
      ensures old(unread) == 0 ==> item == None && Queue(Abs()) == []
      ensures old(unread) > 0 ==> item.Some? && Queue(old(Abs())) == [item.value] + Queue(Abs())
    {
      if !IsNotEmpty() { return None; }
      unread := unread - 1;
      return Some(container[unread]);
    }

    /** The batch is copied to the front of the caller's array. */
    method PopBackVector(items: array<T>) returns (ok: bool, size: nat)
      requires Valid() && items.Length >= 1024
      modifies this, items
      ensures Valid() && Abs() == Advance(old(Abs()), Taken(old(Abs()), DoPopVector))
      ensures ok <==> old(unread) > 0
      ensures size == Min(old(unread), 1024) && items[..size] + Queue(Abs()) == Queue(old(Abs()))
      ensures items[size..] == old(items[size..])
    {
      if !IsNotEmpty() { return false, 0; }
      var i := 0;
      while unread > 0 && i < 1024
        invariant i <= 1024 && unread + i == old(unread) && container == old(container)
        invariant forall j :: 0 <= j < i ==> items[j] == container[old(unread) - 1 - j]
        invariant forall j :: i <= j < items.Length ==> items[j] == old(items[j])
        decreases unread
      {
        unread := unread - 1;
        items[i] := container[unread];
        i := i + 1;
      }
      return true, i;
    }
  }
}
