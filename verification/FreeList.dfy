/** The LBA free list of the offload tier (lib/offload/OffloadFreeList.cpp).

    One list holds both recycled LBAs and, in a single node with a negative
    `lba` field, every LBA that was never handed out: `-n` stands for
    "n, n+1, ..., maxLba-1 and finally 0". */
module FreeListSpec {
  import opened Basics

  /** One `get`: the value handed out (None when the transaction aborts) and the
      `lba` fields of the list afterwards, head first. */
  function Get(q: seq<int>, maxLba: nat): (r: (Option<int>, seq<int>)) {
    if q == [] || maxLba == 0 then (None, q)
    else if q[0] >= 0 then (Some(q[0]), q[1..])
    else if -q[0] < maxLba - 1 then (Some(-q[0]), [q[0] - 1] + q[1..])
    else if -q[0] == maxLba - 1 then (Some(-q[0]), [0] + q[1..])
    else (None, q)
  }

  function Push(q: seq<int>, lba: int): (r: seq<int>) {
    q + [lba]
  }

  datatype Op = DoGet | DoPush(lba: int)

  /** A run so far: the list, what `get` handed out and `push` took back, both in
      order, and the LBAs callers currently hold. */
  datatype Run = Run(queue: seq<int>, got: seq<int>, pushed: seq<int>, held: set<int>)

  function Exec(maxLba: nat, ops: seq<Op>): (r: Run) {
    if ops == [] then Run(Push([], -1), [], [], {})
    else
      var before := Exec(maxLba, ops[..|ops| - 1]);
      match ops[|ops| - 1]
      case DoPush(lba) =>
        before.(queue := Push(before.queue, lba), pushed := before.pushed + [lba], held := before.held - {lba})
      case DoGet =>
        var (res, q) := Get(before.queue, maxLba);
        if res.None? then before.(queue := q)
        else before.(queue := q, got := before.got + [res.value], held := before.held + {res.value})
  }

  /** Callers give back only what they hold. */
  ghost predicate Legal(maxLba: nat, ops: seq<Op>) {
    forall i :: 0 <= i < |ops| && ops[i].DoPush? ==> ops[i].lba in Exec(maxLba, ops[..i]).held
  }

  /** The order in which never-used LBAs come out. */
  function Fresh(maxLba: nat): (r: seq<int>)
    requires maxLba >= 1
    ensures |r| == maxLba
  {
    seq(maxLba, i requires 0 <= i < maxLba => if i == maxLba - 1 then 0 else i + 1)
  }

  /** Everything that will still come out, in order, if nothing more is pushed. */
  ghost function Pending(maxLba: nat, r: Run): seq<int>
    requires maxLba >= 1 && |r.got| <= maxLba + |r.pushed|
  {
    (Fresh(maxLba) + r.pushed)[|r.got|..]
  }

  /** The list that a run with `n` successful gets must have reached. */
  ghost function ExpectedQueue(maxLba: nat, n: nat, pushed: seq<int>): seq<int>
    requires maxLba >= 2 && n <= maxLba + |pushed|
  {
    if n < maxLba - 1 then [-(n + 1)] + pushed
    else if n == maxLba - 1 then [0] + pushed
    else pushed[n - maxLba..]
  }

  /** Held LBAs and pending LBAs partition [0, maxLba). */
  ghost predicate Partition(maxLba: nat, held: set<int>, pending: seq<int>) {
    && NoDuplicates(pending)
    && (forall x :: x in pending ==> x !in held)
    && (forall x :: 0 <= x < maxLba <==> x in held || x in pending)
  }

  lemma FreshIsPartition(maxLba: nat)
    requires maxLba >= 2
    ensures Partition(maxLba, {}, Fresh(maxLba))
  {
    var f := Fresh(maxLba);
    forall x | 0 <= x < maxLba ensures x in f {
      assert f[if x == 0 then maxLba - 1 else x - 1] == x;
    }
  }

  ghost predicate RunInv(maxLba: nat, r: Run)
    requires maxLba >= 2
  {
    && |r.got| <= maxLba + |r.pushed|
    && r.queue == ExpectedQueue(maxLba, |r.got|, r.pushed)
    && r.got == (Fresh(maxLba) + r.pushed)[..|r.got|]
    && Partition(maxLba, r.held, Pending(maxLba, r))
  }

  lemma GetStep(maxLba: nat, r: Run)
    requires maxLba >= 2 && RunInv(maxLba, r)
    ensures Pending(maxLba, r) == [] ==> Get(r.queue, maxLba) == (None, r.queue)
    ensures Pending(maxLba, r) != [] ==>
              && |r.got| < maxLba + |r.pushed|
              && Get(r.queue, maxLba) ==
                 (Some(Pending(maxLba, r)[0]), ExpectedQueue(maxLba, |r.got| + 1, r.pushed))
  {
    var n := |r.got|;
    if n >= maxLba {
      assert Pending(maxLba, r) == r.pushed[n - maxLba..];
      assert r.queue != [] ==> r.queue[0] in Pending(maxLba, r);
    } else {
      assert Pending(maxLba, r)[0] == Fresh(maxLba)[n];
      assert r.queue[1..] == r.pushed;
      if n == maxLba - 1 {
        assert ExpectedQueue(maxLba, n + 1, r.pushed) == r.pushed;
      }
    }
  }

  lemma PartitionTake(maxLba: nat, held: set<int>, pending: seq<int>)
    requires pending != [] && Partition(maxLba, held, pending)
    ensures Partition(maxLba, held + {pending[0]}, pending[1..])
  {
    assert pending == [pending[0]] + pending[1..];
  }

  lemma PartitionGiveBack(maxLba: nat, held: set<int>, pending: seq<int>, lba: int)
    requires lba in held && Partition(maxLba, held, pending)
    ensures Partition(maxLba, held - {lba}, pending + [lba])
  {
    forall x | x in held - {lba} || x in pending + [lba] ensures 0 <= x < maxLba {}
    forall x | 0 <= x < maxLba ensures x in held - {lba} || x in pending + [lba] {
      if x != lba && x in pending { assert x in pending + [lba]; }
      if x == lba { assert (pending + [lba])[|pending|] == x; }
    }
  }

  lemma PushKeepsInv(maxLba: nat, r: Run, lba: int)
    requires maxLba >= 2 && RunInv(maxLba, r) && lba in r.held
    ensures RunInv(maxLba, r.(queue := Push(r.queue, lba), pushed := r.pushed + [lba], held := r.held - {lba}))
  {
    var after := r.(queue := Push(r.queue, lba), pushed := r.pushed + [lba], held := r.held - {lba});
    var stream, k := Fresh(maxLba) + r.pushed, |r.got|;
    StreamGrows(Fresh(maxLba), r.pushed, k, lba);
    PartitionGiveBack(maxLba, r.held, stream[k..], lba);
    QueueGrows(maxLba, k, r.pushed, lba);
  }

  lemma StreamGrows(first: seq<int>, pushed: seq<int>, k: nat, lba: int)
    requires k <= |first + pushed|
    ensures var stream, stream' := first + pushed, first + (pushed + [lba]);
            stream'[..k] == stream[..k] && stream'[k..] == stream[k..] + [lba]
  {
    assert first + (pushed + [lba]) == first + pushed + [lba];
  }

  lemma QueueGrows(maxLba: nat, n: nat, pushed: seq<int>, lba: int)
    requires maxLba >= 2 && n <= maxLba + |pushed|
    ensures ExpectedQueue(maxLba, n, pushed + [lba]) == ExpectedQueue(maxLba, n, pushed) + [lba]
  {
  }

  lemma GetKeepsInv(maxLba: nat, r: Run)
    requires maxLba >= 2 && RunInv(maxLba, r) && Pending(maxLba, r) != []
    ensures var (res, q) := Get(r.queue, maxLba);
            && res.Some?
            && RunInv(maxLba, r.(queue := q, got := r.got + [res.value], held := r.held + {res.value}))
  {
    GetStep(maxLba, r);
    var (res, q) := Get(r.queue, maxLba);
    var after := r.(queue := q, got := r.got + [res.value], held := r.held + {res.value});
    var stream, k := Fresh(maxLba) + r.pushed, |r.got|;
    PartitionTake(maxLba, r.held, stream[k..]);
    assert Pending(maxLba, after) == stream[k..][1..];
    assert stream[..k] + [stream[k]] == stream[..k + 1];
  }

  /** Every legal run: what came out is a prefix of 1, ..., maxLba-1, 0 followed by
      the recycled LBAs in the order they were pushed; the list is the matching
      remainder; held, recycled and never-used LBAs partition [0, maxLba). */
  lemma {:induction false} EveryRunIsFifo(maxLba: nat, ops: seq<Op>)
    requires maxLba >= 2 && Legal(maxLba, ops)
    ensures RunInv(maxLba, Exec(maxLba, ops))
  {
    if ops == [] {
      FreshIsPartition(maxLba);
      assert Pending(maxLba, Exec(maxLba, [])) == Fresh(maxLba);
    } else {
      var n := |ops| - 1;
      var prefix := ops[..n];
      assert forall i :: 0 <= i <= n ==> prefix[..i] == ops[..i];
      EveryRunIsFifo(maxLba, prefix);
      var before := Exec(maxLba, prefix);
      match ops[n]
      case DoPush(lba) => PushKeepsInv(maxLba, before, lba);
      case DoGet =>
        GetStep(maxLba, before);
        if Pending(maxLba, before) != [] { GetKeepsInv(maxLba, before); }
    }
  }

  /** A device with fewer than two LBAs: every run leaves the list at its sentinel, and
      nothing was ever handed out. */
  lemma {:induction false} SmallDeviceServesNothing(maxLba: nat, ops: seq<Op>)
    requires maxLba < 2 && Legal(maxLba, ops)
    ensures Exec(maxLba, ops) == Run([-1], [], [], {}) && Get([-1], maxLba) == (None, [-1])
  {
    if ops != [] {
      var n := |ops| - 1;
      assert forall i :: 0 <= i <= n ==> ops[..n][..i] == ops[..i];
      SmallDeviceServesNothing(maxLba, ops[..n]);
    }
  }

  /** `get` aborts exactly when every LBA of the device is held by a caller, or the device has
      fewer than two. */
  lemma GetAbortsIffAllHeld(maxLba: nat, ops: seq<Op>)
    requires Legal(maxLba, ops)
    ensures var r := Exec(maxLba, ops);
            Get(r.queue, maxLba).0.None? <==> maxLba < 2 || forall x :: 0 <= x < maxLba ==> x in r.held
  {
    if maxLba < 2 {
      SmallDeviceServesNothing(maxLba, ops);
    } else {
      EveryRunIsFifo(maxLba, ops);
      var r := Exec(maxLba, ops);
      GetStep(maxLba, r);
      var p := Pending(maxLba, r);
      if p != [] {
        assert p[0] in p && p[0] !in r.held;
        assert 0 <= p[0] < maxLba;
      }
    }
  }

  /** No LBA is handed to two callers at once. */
  lemma NeverHandedOutTwice(maxLba: nat, ops: seq<Op>)
    requires Legal(maxLba, ops)
    ensures var r := Exec(maxLba, ops);
            var out := Get(r.queue, maxLba).0;
            out.Some? ==> 0 <= out.value < maxLba && out.value !in r.held
  {
    if maxLba < 2 {
      SmallDeviceServesNothing(maxLba, ops);
    } else {
      EveryRunIsFifo(maxLba, ops);
      var r := Exec(maxLba, ops);
      GetStep(maxLba, r);
      if Pending(maxLba, r) != [] {
        assert Pending(maxLba, r)[0] in Pending(maxLba, r);
      }
    }
  }

  /** The bound on maxLba is exact: some run hands something out if and only if the device
      holds at least two LBAs. */
  lemma ServesIffTwoLbas(maxLba: nat)
    ensures (exists ops :: Legal(maxLba, ops) && Exec(maxLba, ops).got != []) <==> maxLba >= 2
  {
    if maxLba >= 2 {
      var ops := [DoGet];
      assert ops[..0] == [];
      assert Exec(maxLba, ops).got == [Get([-1], maxLba).0.value];
      assert Legal(maxLba, ops);
    } else {
      forall ops | Legal(maxLba, ops) ensures Exec(maxLba, ops).got == [] {
        SmallDeviceServesNothing(maxLba, ops);
      }
    }
  }
}

/** The list itself: nodes linked through `next`, updated in place. */
module OffloadFreeLists {
  import opened Basics
  import opened FreeListSpec

  class FreeLba {
    var next: FreeLba?
    var lba: int
    constructor (lba: int)
      ensures this.lba == lba && next == null
    {
      this.lba := lba;
      next := null;
    }
  }

  class OffloadFreeList {
    var head: FreeLba?
    var tail: FreeLba?
    var maxLba: nat
    ghost var spine: seq<FreeLba>  // the nodes from head to tail

    ghost predicate Valid()
      reads this, spine
    {
      && (head == null <==> spine == [])
      && (tail == null <==> spine == [])
      && (spine != [] ==> head == spine[0] && tail == spine[|spine| - 1] && tail.next == null)
      && (forall i, j :: 0 <= i < j < |spine| ==> spine[i] != spine[j])
      && (forall i :: 0 <= i < |spine| - 1 ==> spine[i].next == spine[i + 1])
    }

    ghost function Lbas(): (s: seq<int>)
      reads this, spine
      ensures |s| == |spine|
    {
      seq(|spine|, i requires 0 <= i < |spine| reads this, spine => spine[i].lba)
    }

    constructor (maxLba: nat)
      ensures Valid() && Lbas() == [] && this.maxLba == maxLba
    {
      head, tail := null, null;
      this.maxLba := maxLba;
      spine := [];
    }

    method Push(value: int)
      requires Valid()
      modifies this, spine
      ensures Valid() && maxLba == old(maxLba)
      ensures Lbas() == FreeListSpec.Push(old(Lbas()), value)
      ensures fresh(set n | n in spine && n !in old(spine))
    {
      var n := new FreeLba(value);
      if head == null && tail == null {
        head, tail := n, n;
      } else {
        tail.next := n;
        tail := n;
      }
      spine := spine + [n];
    }

    /** None models the aborted transaction, which leaves the list as it was. */
    method Get() returns (r: Option<int>)
      requires Valid()
      modifies this, spine
      ensures Valid() && maxLba == old(maxLba)
      ensures (r, Lbas()) == FreeListSpec.Get(old(Lbas()), maxLba)
      ensures spine == old(spine) || (old(spine) != [] && spine == old(spine)[1..])
    {
      if head == null || maxLba == 0 {
        return None;
      }
      var ret := head.lba;
      assert Lbas()[0] == ret;
      if ret >= 0 {
        assert |spine| > 1 ==> spine[0].next == spine[1];
        head := head.next;
        spine := spine[1..];
        if head == null {
          tail := null;
        }
        assert Lbas() == old(Lbas())[1..];
        return Some(ret);
      }
      ret := -ret;
      if ret < maxLba - 1 {
        head.lba := head.lba - 1;
      } else if ret == maxLba - 1 {
        head.lba := 0;
      } else {
        return None;
      }
      assert Lbas() == [head.lba] + old(Lbas())[1..];
      r := Some(ret);
    }

    method Clear()
      requires Valid()
      modifies this
      ensures Valid() && Lbas() == [] && head == null && tail == null && maxLba == old(maxLba)
    {
      while head != null
        invariant Valid() && maxLba == old(maxLba)
        decreases |spine|
      {
        assert |spine| > 1 ==> spine[0].next == spine[1];
        head := head.next;
        spine := spine[1..];
        if head == null {
          tail := null;
        }
      }
    }
  }
}
