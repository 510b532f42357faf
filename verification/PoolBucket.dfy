/** One bucket of an object pool (lib/common/GeneralPoolBucket.h,
    lib/common/GeneralPoolBuffer.h): a ring of slots spread over 1024-slot buffers that
    grows by inserting a buffer in the middle of the ring. */
module PoolBuckets {
  import opened Basics

  /** An object made by the pool, with the stamp written behind it. */
  class PooledObject {
    const stamp: nat

    constructor (stamp: nat)
      ensures this.stamp == stamp
    {
      this.stamp := stamp;
    }
  }

  type Ring = seq<PooledObject?>

  // ---- The ring as a value: slot contents plus the four control fields ----

  predicate Occupied(g: nat, head: nat, tail: nat, full: bool) {
    if tail < head then tail <= g < head
    else if head < tail then g < head || tail <= g
    else full
  }

  ghost predicate RingOk(ring: Ring, head: nat, tail: nat, full: bool, empty: bool) {
    && (ring == [] ==> head == 0 && tail == 0 && empty)
    && (ring != [] ==> head < |ring| && tail < |ring|)
    && (full ==> ring != [] && head == tail)
    && (empty <==> head == tail && !full)
    && forall g :: 0 <= g < |ring| ==> (ring[g] != null <==> Occupied(g, head, tail, full))
  }

  /** The objects in the ring, oldest first. */
  ghost function Items(ring: Ring, head: nat, tail: nat, full: bool): (q: Ring)
    requires head <= |ring| && tail <= |ring|
    ensures null in q ==> null in ring
  {
    if tail < head then ring[tail..head]
    else if head < tail || full then ring[tail..] + ring[..head]
    else []
  }

  /** `(tail + 1024) % (max + 1024)`, the tail after growth. */
  function Shifted(tail: nat, max: nat): (r: nat) {
    if max == 0 then 0 else tail + 1024
  }

  lemma ShiftIsRemainder(i: nat, max: nat)
    requires i < max || i == max == 0
    ensures (i + 1024) % (max + 1024) == Shifted(i, max)
  {
  }

  lemma ItemsNonNull(ring: Ring, head: nat, tail: nat, full: bool, empty: bool)
    requires RingOk(ring, head, tail, full, empty)
    ensures head <= |ring| && tail <= |ring|
    ensures null !in Items(ring, head, tail, full)
  {
  }

  lemma TakeOne(ring: Ring, head: nat, tail: nat, full: bool, empty: bool)
    requires RingOk(ring, head, tail, full, empty) && !empty
    ensures ring[tail] != null
    ensures var ring', tail' := ring[tail := null], Successor(tail, |ring|);
            && RingOk(ring', head, tail', false, tail' == head)
            && Items(ring, head, tail, full) == [ring[tail]] + Items(ring', head, tail', false)
  {
  }

  lemma AddOne(ring: Ring, head: nat, tail: nat, full: bool, empty: bool, obj: PooledObject)
    requires RingOk(ring, head, tail, full, empty) && !full && ring != []
    ensures ring[head] == null
    ensures var ring', head' := ring[head := obj], Successor(head, |ring|);
            && RingOk(ring', head', tail, head' == tail, false)
            && Items(ring', head', tail, head' == tail) == Items(ring, head, tail, full) + [obj]
  {
  }

  function Nulls(n: nat): (r: Ring)
    ensures |r| == n && forall i :: 0 <= i < n ==> r[i] == null
  {
    seq(n, _ => null)
  }

  /** Growth: empty slots go in at `head`, and everything from `tail` on moves up. */
  ghost function Grown(ring: Ring, head: nat): (r: Ring)
    requires head <= |ring|
    ensures |r| == |ring| + 1024
  {
    ring[..head] + Nulls(1024) + ring[head..]
  }

  lemma GrownAt(ring: Ring, head: nat, g: nat)
    requires head <= |ring| && g < |ring| + 1024
    ensures Grown(ring, head)[g] ==
            if g < head then ring[g] else if g < head + 1024 then null else ring[g - 1024]
  {
  }

  lemma GrowthKeepsItems(ring: Ring, head: nat, tail: nat, full: bool, empty: bool)
    requires RingOk(ring, head, tail, full, empty) && (full || ring == [])
    ensures var tail' := Shifted(tail, |ring|);
            && RingOk(Grown(ring, head), head, tail', false, empty)
            && Items(Grown(ring, head), head, tail', false) == Items(ring, head, tail, full)
  {
    if full {
      assert Grown(ring, head)[tail + 1024..] == ring[tail..];
      assert Grown(ring, head)[..head] == ring[..head];
    }
  }

  // ---- The bucket ----

  /** `i++; i %= max`. */
  method AdvanceIndex(i: nat, max: nat) returns (r: nat)
    requires i < max
    ensures r == Successor(i, max)
  {
    SuccessorIsRemainder(i, max);
    r := i + 1;
    r := r % max;
  }

  /** `i += 1024; i %= max` once `max` has grown by as much. */
  method ShiftIndex(i: nat, max: nat) returns (r: nat)
    requires i < max || i == max == 0
    ensures r == Shifted(i, max)
  {
    ShiftIsRemainder(i, max);
    r := i + 1024;
    r := r % (max + 1024);
  }

  class GeneralPoolBuffer {
    const slots: array<PooledObject?>

    constructor ()
      ensures fresh(slots) && slots.Length == 1024
      ensures forall i :: 0 <= i < 1024 ==> slots[i] == null
    {
      slots := new PooledObject?[1024](_ => null);
    }

    method Rellocate(buf: GeneralPoolBuffer, howMany: nat)
      requires slots.Length == 1024 && buf.slots.Length == 1024 && howMany <= 1024 && buf.slots != slots
      modifies slots
      ensures forall i :: 0 <= i < 1024 ==> slots[i] == if i < howMany then buf.slots[i] else old(slots[i])
    {
      for i := 0 to howMany
        invariant forall j :: 0 <= j < 1024 ==> slots[j] == if j < i then buf.slots[j] else old(slots[j])
      {
        slots[i] := buf.slots[i];
      }
    }

    method ZeroOut(howMany: nat)
      requires slots.Length == 1024 && howMany <= 1024
      modifies slots
      ensures forall i :: 0 <= i < 1024 ==> slots[i] == if i < howMany then null else old(slots[i])
    {
      for i := 0 to howMany
        invariant forall j :: 0 <= j < 1024 ==> slots[j] == if j < i then null else old(slots[j])
      {
        slots[i] := null;
      }
    }
  }

  const MAX_BUCKET_BUFFERS: nat := 256
  const MAX_OBJECTS: nat := 262144  // 256 buffers of 1024 slots

  /** Done, or the reason for which the source calls abort(); UnsetBuffer is the access
      through a buffer pointer that was never set. */
  datatype Outcome = Done | NoMoreBuffers | OccupiedSlot | NullSlot | UnsetBuffer

  class GeneralPoolBucket {
    var head: nat
    var tail: nat
    var full: bool
    var empty: bool
    var quantInc: nat
    var currentMax: nat
    var bucketNum: nat
    var stamp: nat
    var buffers: seq<GeneralPoolBuffer>
    ghost var ring: Ring  // the slots of all buffers, in order
    ghost var Repr: set<object>

    ghost predicate BuffersOk()
      reads this
    {
      && this in Repr
      && (forall o :: o in Repr ==> !(o is PooledObject))
      && |buffers| <= MAX_BUCKET_BUFFERS
      && currentMax == 1024 * |buffers| == |ring|
      && (forall i :: 0 <= i < |buffers| ==>
            buffers[i] in Repr && buffers[i].slots in Repr && buffers[i].slots.Length == 1024)
      && (forall i, j :: 0 <= i < j < |buffers| ==>
            buffers[i] != buffers[j] && buffers[i].slots != buffers[j].slots)
    }

    ghost predicate SlotsOk()
      requires BuffersOk()
      reads this, Repr
    {
      forall g :: 0 <= g < |ring| ==> ring[g] == buffers[g / 1024].slots[g % 1024]
    }

    ghost predicate Valid()
      reads this, Repr
    {
      BuffersOk() && SlotsOk() && RingOk(ring, head, tail, full, empty)
    }

    /** The bucket as one queue. */
    ghost function Queue(): (q: Ring)
      requires Valid()
      reads this, Repr
      ensures null !in q && |q| <= |ring| <= MAX_OBJECTS
    {
      ItemsNonNull(ring, head, tail, full, empty);
      Items(ring, head, tail, full)
    }

    constructor (bucketNum: nat, stamp: nat)
      ensures Valid() && Queue() == [] && Repr == {this}
      ensures Kept(0, stamp, bucketNum)
    {
      head, tail, full, empty, currentMax := 0, 0, false, true, 0;
      buffers, ring, Repr := [], [], {this};
      quantInc, this.stamp, this.bucketNum := 0, stamp, bucketNum;
    }

    /** What does not touch a bucket's objects does not change the bucket. */
    twostate lemma Framed()
      requires old(Valid()) && unchanged(old(Repr))
      ensures Valid() && Queue() == old(Queue()) && Repr == old(Repr)
    {
    }

    method Size() returns (n: nat)
      requires Valid()
      ensures n == |Queue()|
    {
      if full {
        return currentMax;
      }
      if head >= tail {
        return head - tail;
      }
      return currentMax - (tail - head);
    }

    /** A new buffer that takes over the first `split` slots of buffer `pos`. */
    method SplitBuffer(pos: nat, split: nat) returns (added: GeneralPoolBuffer)
      requires BuffersOk() && pos <= |buffers| && split < 1024 && (pos == |buffers| ==> split == 0)
      modifies set b | b in buffers :: b.slots
      ensures fresh(added) && fresh(added.slots) && added.slots.Length == 1024
      ensures forall i :: 0 <= i < 1024 ==>
                added.slots[i] == if i < split then old(buffers[pos].slots[i]) else null
      ensures forall b, i :: 0 <= b < |buffers| && 0 <= i < 1024 ==>
                buffers[b].slots[i] == if b == pos && i < split then null else old(buffers[b].slots[i])
    {
      added := new GeneralPoolBuffer();
      if pos < |buffers| {
        added.Rellocate(buffers[pos], split);
        buffers[pos].ZeroOut(split);
      }
    }

    static lemma InsertedAt(was: seq<GeneralPoolBuffer>, pos: nat, added: GeneralPoolBuffer)
      requires pos <= |was|
      ensures var now := was[..pos] + [added] + was[pos..];
              forall b :: 0 <= b < |now| ==>
                now[b] == if b < pos then was[b] else if b == pos then added else was[b - 1]
    {
    }

    /** Inserts that buffer before buffer `pos`. */
    method InsertBuffer(pos: nat, split: nat)
      requires BuffersOk() && |buffers| < MAX_BUCKET_BUFFERS
      requires pos <= |buffers| && split < 1024 && (pos == |buffers| ==> split == 0) && head <= |ring|
      modifies Repr
      ensures BuffersOk() && |buffers| == old(|buffers|) + 1 && ring == Grown(old(ring), old(head))
      ensures forall b, i {:trigger buffers[b].slots[i]} :: 0 <= b < |buffers| && 0 <= i < 1024 ==>
                buffers[b].slots[i] ==
                if b < pos then old(buffers[b].slots[i])
                else if b == pos then (if i < split then old(buffers[pos].slots[i]) else null)
                else if b == pos + 1 && i < split then null
                else old(buffers[b - 1].slots[i])
      ensures SameControl(old(head), old(tail), old(full), old(empty))
      ensures Kept(old(quantInc), old(stamp), old(bucketNum)) && fresh(Repr - old(Repr))
    {
      var added := SplitBuffer(pos, split);
      ghost var was := buffers;
      buffers := buffers[..pos] + [added] + buffers[pos..];
      InsertedAt(was, pos, added);
      ring := Grown(ring, head);
      currentMax := currentMax + 1024;
      Repr := Repr + {added, added.slots};
    }

    /** Grows the ring at `head`: the buffer found there keeps its slots from `head` on,
        the new one takes those before it. */
    method GrowAtHead()
      requires BuffersOk() && SlotsOk() && |buffers| < MAX_BUCKET_BUFFERS
      requires head < |ring| || (head == 0 && ring == [])
      modifies Repr
      ensures BuffersOk() && SlotsOk() && |buffers| == old(|buffers|) + 1 && ring == Grown(old(ring), old(head))
      ensures SameControl(old(head), old(tail), old(full), old(empty))
      ensures Kept(old(quantInc), old(stamp), old(bucketNum)) && fresh(Repr - old(Repr))
    {
      InsertBuffer(head / 1024, head % 1024);
      forall g | 0 <= g < |ring|
        ensures ring[g] == buffers[g / 1024].slots[g % 1024]
      {
        GrownAt(old(ring), head, g);
        if g < head {
          assert old(ring[g] == buffers[g / 1024].slots[g % 1024]);
        } else if g >= head + 1024 {
          assert (g - 1024) / 1024 == g / 1024 - 1 && (g - 1024) % 1024 == g % 1024;
          assert old(ring[g - 1024] == buffers[g / 1024 - 1].slots[g % 1024]);
        }
      }
    }

    ghost predicate SameControl(head: nat, tail: nat, full: bool, empty: bool)
      reads this
    {
      this.head == head && this.tail == tail && this.full == full && this.empty == empty
    }

    /** Overwrites slot g of the ring. */
    method SetSlot(g: nat, obj: PooledObject?)
      requires BuffersOk() && SlotsOk() && g < |ring|
      modifies Repr
      ensures BuffersOk() && SlotsOk() && ring == old(ring)[g := obj] && buffers == old(buffers) && Repr == old(Repr)
      ensures SameControl(old(head), old(tail), old(full), old(empty))
      ensures Kept(old(quantInc), old(stamp), old(bucketNum))
    {
      buffers[g / 1024].slots[g % 1024] := obj;
      ring := ring[g := obj];
    }

    method MakeBuffer() returns (o: Outcome)
      requires Valid() && (full || |buffers| == 0)
      modifies Repr
      ensures Valid() && Kept(old(quantInc), old(stamp), old(bucketNum))
      ensures o == if old(|buffers|) >= MAX_BUCKET_BUFFERS then NoMoreBuffers else Done
      ensures o.Done? ==> !full && |buffers| == old(|buffers|) + 1
      ensures Queue() == old(Queue())
      ensures fresh(Repr - old(Repr))
    {
      if |buffers| >= MAX_BUCKET_BUFFERS {
        return NoMoreBuffers;
      }
      GrowthKeepsItems(ring, head, tail, full, empty);
      GrowAtHead();
      tail := ShiftIndex(tail, currentMax - 1024);
      full := false;
      o := Done;
    }

    ghost predicate Kept(quantInc: nat, stamp: nat, bucketNum: nat)
      reads this
    {
      this.quantInc == quantInc && this.stamp == stamp && this.bucketNum == bucketNum
    }

    /** `putNoLock` once there is room. */
    method Append(obj: PooledObject) returns (o: Outcome)
      requires Valid() && !full && |buffers| > 0
      modifies Repr
      ensures Valid() && Kept(old(quantInc), old(stamp), old(bucketNum))
      ensures o.Done? && Queue() == old(Queue()) + [obj] && Repr == old(Repr)
    {
      AddOne(ring, head, tail, full, empty, obj);
      if buffers[head / 1024].slots[head % 1024] != null {
        assert false;
        return OccupiedSlot;
      }
      SetSlot(head, obj);
      head := AdvanceIndex(head, currentMax);
      if head == tail {
        full := true;
      }
      empty := false;
      o := Done;
    }

    method PutNoLock(obj: PooledObject) returns (o: Outcome)
      requires Valid()
      modifies Repr
      ensures Valid() && Kept(old(quantInc), old(stamp), old(bucketNum))
      ensures o == if |old(Queue())| == MAX_OBJECTS then NoMoreBuffers else Done
      ensures Queue() == if o.Done? then old(Queue()) + [obj] else old(Queue())
      ensures fresh(Repr - old(Repr))
    {
      if full || |buffers| == 0 {
        o := MakeBuffer();
        if o != Done || full {
          return;
        }
      }
      o := Append(obj);
    }

    /** Makes `count` stamped objects and puts them in. */
    method Make(count: nat) returns (o: Outcome, ghost made: seq<PooledObject>)
      requires Valid()
      modifies Repr
      ensures Valid() && Kept(old(quantInc), old(stamp), old(bucketNum))
      ensures o == if |old(Queue())| + count > MAX_OBJECTS then NoMoreBuffers else Done
      ensures o.Done? ==> |made| == count
      ensures count == 0 ==> buffers == old(buffers)
      ensures Queue() == old(Queue()) + made && NoDuplicates(made)
      ensures forall x :: x in made ==> fresh(x) && x.stamp == stamp
      ensures fresh(Repr - old(Repr))
    {
      o, made := Done, [];
      for cnt := 0 to count
        invariant Valid() && Kept(old(quantInc), old(stamp), old(bucketNum))
        invariant |made| == cnt && Queue() == old(Queue()) + made && NoDuplicates(made)
        invariant forall x :: x in made ==> fresh(x) && x.stamp == stamp
        invariant fresh(Repr - old(Repr))
        invariant o.Done? && (cnt == 0 ==> buffers == old(buffers))
      {
        var obj := new PooledObject(stamp);
        o := PutNoLock(obj);
        if o != Done {
          return;
        }
        made := made + [obj];
      }
    }

    /** `setStrategy`: the increment, then objects made in advance. */
    method SetStrategy(strategy: Strategy, objSize: nat) returns (o: Outcome, ghost made: seq<PooledObject>)
      requires Valid() && objSize > 0
      modifies Repr
      ensures var preall := strategy.preallocateCount / objSize;
              && Valid() && Kept(QuantInc(strategy, objSize), old(stamp), old(bucketNum))
              && o == (if |old(Queue())| + preall > MAX_OBJECTS then NoMoreBuffers else Done)
              && (o.Done? ==> |made| == preall)
      ensures Queue() == old(Queue()) + made && NoDuplicates(made)
      ensures forall x :: x in made ==> fresh(x) && x.stamp == stamp
      ensures fresh(Repr - old(Repr))
    {
      var preall := strategy.preallocateCount / objSize;
      quantInc := strategy.incrementQuant / objSize;
      if quantInc <= strategy.minIncQuant { quantInc := strategy.minIncQuant; }
      if quantInc >= strategy.maxIncQuant { quantInc := strategy.maxIncQuant; }
      o, made := Make(preall);
    }

    /** `getNoLock` once there is something to take. */
    method TakeFront() returns (o: Outcome, obj: PooledObject?)
      requires Valid() && !empty
      modifies Repr
      ensures Valid() && Kept(old(quantInc), old(stamp), old(bucketNum))
      ensures o.Done? && obj != null && old(Queue()) == [obj] + Queue() && Repr == old(Repr)
    {
      TakeOne(ring, head, tail, full, empty);
      obj := buffers[tail / 1024].slots[tail % 1024];
      if obj == null {
        assert false;
        return NullSlot, null;
      }
      SetSlot(tail, null);
      tail := AdvanceIndex(tail, currentMax);
      if tail == head {
        empty := true;
      }
      full := false;
      o := Done;
    }

    method GetNoLock() returns (o: Outcome, obj: PooledObject?, ghost made: seq<PooledObject>)
      requires Valid()
      modifies Repr
      ensures Valid() && Kept(old(quantInc), old(stamp), old(bucketNum))
      ensures o == if old(Queue()) != [] || 0 < quantInc <= MAX_OBJECTS then Done
                   else if quantInc > 0 then NoMoreBuffers
                   else if old(|buffers|) == 0 then UnsetBuffer else NullSlot
      ensures o.Done? ==> obj != null && [obj] + Queue() == old(Queue()) + made
      ensures o.Done? ==> |made| == if old(Queue()) == [] then quantInc else 0
      ensures NoDuplicates(made) && forall x :: x in made ==> fresh(x) && x.stamp == stamp
      ensures fresh(Repr - old(Repr))
    {
      made := [];
      if empty {
        o, made := Make(quantInc);
        if o != Done {
          return o, null, made;
        }
      }
      if empty {
        // nothing was made: the slot at `tail` is null, if there is a buffer at all
        return if |buffers| == 0 then UnsetBuffer else NullSlot, null, made;
      }
      o, obj := TakeFront();
    }
  }

  /** The part of an `AllocStrategy` that shapes a bucket; counts are in bytes. */
  datatype Strategy = Strategy(preallocateCount: nat, incrementQuant: nat, minIncQuant: nat, maxIncQuant: nat)

  const DEFAULT_STRATEGY: Strategy := Strategy(0, 320, 4, 10)

  /** The increment a strategy asks for, clamped from below and then from above. */
  function QuantInc(s: Strategy, objSize: nat): (r: nat)
    requires objSize > 0
    ensures r > 0 <==> s.maxIncQuant > 0 && (s.minIncQuant > 0 || s.incrementQuant >= objSize)
    ensures r <= s.maxIncQuant && (s.minIncQuant <= s.maxIncQuant ==> r >= s.minIncQuant)
  {
    var q := s.incrementQuant / objSize;
    var atLeast := if q <= s.minIncQuant then s.minIncQuant else q;
    if atLeast >= s.maxIncQuant then s.maxIncQuant else atLeast
  }

  function Distance(a: nat, b: nat): (d: nat) {
    if a < b then b - a else a - b
  }

  /** Of the increments between minimum and maximum it is the one closest to the quotient; with
      the minimum above the maximum it is the maximum. */
  lemma QuantIncIsClosest(s: Strategy, objSize: nat, other: nat)
    requires objSize > 0
    ensures s.minIncQuant <= other <= s.maxIncQuant ==>
              Distance(QuantInc(s, objSize), s.incrementQuant / objSize) <= Distance(other, s.incrementQuant / objSize)
    ensures s.minIncQuant > s.maxIncQuant ==> QuantInc(s, objSize) == s.maxIncQuant
  {
    var q := s.incrementQuant / objSize;
    assert QuantInc(s, objSize) == q || QuantInc(s, objSize) in {s.minIncQuant, s.maxIncQuant};
  }
}
