/** The object pool (lib/common/GeneralPool.h): 64 buckets, objects taken round robin
    and routed home by the stamp written behind each of them. */
module GeneralPools {
  import opened Basics
  import opened PoolBuckets

  const MAX_POOL_BUCKETS: nat := 64

  /** `(bucketNum << 24) + objSize` in 32 bits. */
  function Stamp(bucketNum: nat, objSize: nat): (r: nat) {
    (bucketNum * 0x100_0000 + objSize) % 0x1_0000_0000
  }

  function StampSize(stamp: nat): (r: nat) {
    stamp % 0x100_0000
  }

  function StampBucket(stamp: nat): (r: nat) {
    stamp / 0x100_0000 % 0x100
  }

  /** A stamp names its bucket and size again if and only if the size fits 24 bits. */
  lemma StampRoundTrip(bucketNum: nat, objSize: nat)
    requires bucketNum < MAX_POOL_BUCKETS && objSize < 0x1_0000_0000
    ensures StampSize(Stamp(bucketNum, objSize)) == objSize <==> objSize < 0x100_0000
    ensures objSize < 0x100_0000 ==> StampBucket(Stamp(bucketNum, objSize)) == bucketNum
  {
  }

  lemma StampsDiffer(b1: nat, b2: nat, objSize: nat)
    requires b1 < b2 < MAX_POOL_BUCKETS && objSize < 0x1_0000_0000
    ensures Stamp(b1, objSize) != Stamp(b2, objSize)
  {
  }

  ghost function Elements(q: seq<PooledObject>): set<PooledObject> {
    set x | x in q
  }

  // ---- Conservation, over the 64 queues as values ----

  type Queues = qs: seq<seq<PooledObject>> | |qs| == MAX_POOL_BUCKETS
    witness seq(MAX_POOL_BUCKETS, _ => [])

  /** `home` maps every object the pool ever made to the bucket that made it. Each is
      held by a caller or stored, once, in its home bucket; nothing is both held and
      stored; nothing else is stored. */
  ghost predicate Conserved(qs: Queues, held: set<PooledObject>, home: map<PooledObject, nat>) {
    && held <= home.Keys
    && (forall b, x :: 0 <= b < MAX_POOL_BUCKETS && x in qs[b] ==> x in home && home[x] == b && x !in held)
    && (forall b :: 0 <= b < MAX_POOL_BUCKETS ==> NoDuplicates(qs[b]))
    && (forall x :: x in home ==> home[x] < MAX_POOL_BUCKETS && (x in held || x in qs[home[x]]))
  }

  ghost function WithHome(home: map<PooledObject, nat>, minted: seq<PooledObject>, b: nat): map<PooledObject, nat> {
    map x | x in home.Keys + Elements(minted) :: if x in minted then b else home[x]
  }

  /** The pool while it is being built: every object made is stored once, at home. */
  ghost predicate Settled(qs: seq<seq<PooledObject>>, home: map<PooledObject, nat>) {
    && (forall b, x :: 0 <= b < |qs| && x in qs[b] ==> x in home && home[x] == b)
    && (forall b :: 0 <= b < |qs| ==> NoDuplicates(qs[b]))
    && (forall x :: x in home ==> home[x] < |qs| && x in qs[home[x]])
  }

  lemma SettledGrows(qs: seq<seq<PooledObject>>, home: map<PooledObject, nat>, made: seq<PooledObject>)
    requires Settled(qs, home) && NoDuplicates(made) && forall x :: x in made ==> x !in home
    ensures Settled(qs + [made], WithHome(home, made, |qs|))
  {
  }

  /** Every object carries the stamp of the bucket it is in. */
  ghost predicate Stamped(qs: seq<seq<PooledObject>>, objSize: nat) {
    && (forall b :: 0 <= b < |qs| ==> NoDuplicates(qs[b]))
    && (forall b, x :: 0 <= b < |qs| && x in qs[b] ==> x.stamp == Stamp(b, objSize))
  }

  lemma StampedGrows(qs: seq<seq<PooledObject>>, made: seq<PooledObject>, objSize: nat)
    requires Stamped(qs, objSize) && NoDuplicates(made) && forall x :: x in made ==> x.stamp == Stamp(|qs|, objSize)
    ensures Stamped(qs + [made], objSize)
  {
    var all := qs + [made];
    forall b, x: PooledObject | 0 <= b < |all| && x in all[b] ensures x.stamp == Stamp(b, objSize) {
      if b < |qs| { assert x in qs[b]; }
    }
  }

  ghost function HomeOf(qs: seq<seq<PooledObject>>): map<PooledObject, nat> {
    if qs == [] then map[] else WithHome(HomeOf(qs[..|qs| - 1]), qs[|qs| - 1], |qs| - 1)
  }

  lemma NewlyStamped(init: seq<seq<PooledObject>>, last: seq<PooledObject>, home: map<PooledObject, nat>, objSize: nat)
    requires |init| < MAX_POOL_BUCKETS && objSize < 0x1_0000_0000 && forall x :: x in home ==> home[x] < |init|
    requires forall x :: x in home ==> x.stamp == Stamp(home[x], objSize)
    requires forall x :: x in last ==> x.stamp == Stamp(|init|, objSize)
    ensures forall x :: x in last ==> x !in home
  {
    forall x | x in last ensures x !in home {
      if x in home { StampsDiffer(home[x], |init|, objSize); }
    }
  }

  lemma {:induction false} StampedIsSettled(qs: seq<seq<PooledObject>>, objSize: nat)
    requires Stamped(qs, objSize) && |qs| <= MAX_POOL_BUCKETS && objSize < 0x1_0000_0000
    ensures Settled(qs, HomeOf(qs))
    ensures forall x :: x in HomeOf(qs) ==> x.stamp == Stamp(HomeOf(qs)[x], objSize)
  {
    if qs != [] {
      var init, last := qs[..|qs| - 1], qs[|qs| - 1];
      assert forall b :: 0 <= b < |init| ==> init[b] == qs[b];
      StampedIsSettled(init, objSize);
      NewlyStamped(init, last, HomeOf(init), objSize);
      SettledGrows(init, HomeOf(init), last);
      StampsKept(HomeOf(init), last, |init|, objSize);
      assert init + [last] == qs;
    }
  }

  lemma SettledIsConserved(qs: Queues, home: map<PooledObject, nat>)
    requires Settled(qs, home)
    ensures Conserved(qs, {}, home)
  {
  }

  lemma FrontLeaves(q: seq<PooledObject>, minted: seq<PooledObject>, obj: PooledObject, rest: seq<PooledObject>)
    requires NoDuplicates(q) && NoDuplicates(minted) && forall x :: x in minted ==> x !in q
    requires [obj] + rest == q + minted
    ensures NoDuplicates(rest) && obj !in rest && (q != [] ==> obj == q[0])
    ensures forall x :: x in rest ==> x in q || x in minted
    ensures forall x :: x in q || x in minted ==> x == obj || x in rest
  {
    var all := q + minted;
    forall i, j | 0 <= i < j < |all| ensures all[i] != all[j] {
      assert i < |q| <= j ==> all[i] in q && all[j] in minted;
    }
    assert all[0] == obj && all[1..] == rest;
    forall x | x in q || x in minted ensures x == obj || x in rest {
      assert x in [obj] + rest;
    }
    forall x | x in rest ensures x in q || x in minted {
      assert x in all;
    }
  }

  lemma GetConserves(qs: Queues, b: nat, obj: PooledObject, rest: seq<PooledObject>, minted: seq<PooledObject>,
                     held: set<PooledObject>, home: map<PooledObject, nat>)
    requires Conserved(qs, held, home) && b < MAX_POOL_BUCKETS
    requires NoDuplicates(minted) && forall x :: x in minted ==> x !in home
    requires [obj] + rest == qs[b] + minted
    ensures obj !in held && (qs[b] != [] ==> obj == qs[b][0])
    ensures obj in WithHome(home, minted, b) && WithHome(home, minted, b)[obj] == b
    ensures Conserved(qs[b := rest], held + {obj}, WithHome(home, minted, b))
  {
    FrontLeaves(qs[b], minted, obj, rest);
    FrontIsThere(qs[b], minted, obj, rest);
    OthersStay(qs, b, obj, minted, held, home);
    StoredStaysHome(qs, qs[b := rest], b, obj, rest, minted, held, home);
    MadeIsSomewhere(qs, b, obj, rest, minted, held, home);
  }

  lemma FrontIsThere(q: seq<PooledObject>, minted: seq<PooledObject>, obj: PooledObject, rest: seq<PooledObject>)
    requires [obj] + rest == q + minted
    ensures obj in q || obj in minted
  {
    assert ([obj] + rest)[0] in q + minted;
  }

  lemma OthersStay(qs: Queues, b: nat, obj: PooledObject, minted: seq<PooledObject>,
                   held: set<PooledObject>, home: map<PooledObject, nat>)
    requires Conserved(qs, held, home) && b < MAX_POOL_BUCKETS && (obj in qs[b] || obj in minted)
    requires forall x :: x in minted ==> x !in home
    ensures forall c, x :: 0 <= c < MAX_POOL_BUCKETS && c != b && x in qs[c] ==> x !in minted && x != obj
    ensures obj !in held
  {
  }

  lemma StampsKept(home: map<PooledObject, nat>, minted: seq<PooledObject>, b: nat, objSize: nat)
    requires forall x :: x in home ==> x.stamp == Stamp(home[x], objSize)
    requires forall x :: x in minted ==> x.stamp == Stamp(b, objSize)
    ensures forall x :: x in WithHome(home, minted, b) ==> x.stamp == Stamp(WithHome(home, minted, b)[x], objSize)
  {
  }

  lemma StoredStaysHome(qs: Queues, qs': Queues, b: nat, obj: PooledObject, rest: seq<PooledObject>,
                        minted: seq<PooledObject>, held: set<PooledObject>, home: map<PooledObject, nat>)
    requires Conserved(qs, held, home) && b < MAX_POOL_BUCKETS && obj !in rest && qs' == qs[b := rest]
    requires forall x :: x in rest ==> x in qs[b] || x in minted
    requires forall x :: x in minted ==> x !in home
    requires forall c, x :: 0 <= c < MAX_POOL_BUCKETS && c != b && x in qs[c] ==> x !in minted && x != obj
    ensures forall c, x :: 0 <= c < MAX_POOL_BUCKETS && x in qs'[c] ==>
              var home' := WithHome(home, minted, b);
              x in home' && home'[x] == c && x !in held + {obj}
  {
  }

  lemma MadeIsSomewhere(qs: Queues, b: nat, obj: PooledObject, rest: seq<PooledObject>, minted: seq<PooledObject>,
                        held: set<PooledObject>, home: map<PooledObject, nat>)
    requires Conserved(qs, held, home) && b < MAX_POOL_BUCKETS
    requires forall x :: x in qs[b] || x in minted ==> x == obj || x in rest
    ensures forall x :: x in WithHome(home, minted, b) ==>
              var c := WithHome(home, minted, b)[x];
              c < MAX_POOL_BUCKETS && (x in held + {obj} || x in qs[b := rest][c])
  {
  }

  lemma PutConserves(qs: Queues, b: nat, obj: PooledObject, held: set<PooledObject>, home: map<PooledObject, nat>)
    requires Conserved(qs, held, home) && obj in held && home[obj] == b && b < MAX_POOL_BUCKETS
    ensures Conserved(qs[b := qs[b] + [obj]], held - {obj}, home)
  {
    assert forall x :: x in qs[b] + [obj] <==> x in qs[b] || x == obj;
  }

  // ---- Counting: made = stored + held ----

  ghost function StoredBelow(qs: Queues, n: nat): nat
    requires n <= MAX_POOL_BUCKETS
  {
    if n == 0 then 0 else StoredBelow(qs, n - 1) + |qs[n - 1]|
  }

  ghost function StoredSet(qs: Queues, home: map<PooledObject, nat>, n: nat): set<PooledObject>
    requires n <= MAX_POOL_BUCKETS
  {
    set x | x in home && home[x] < n && x in qs[home[x]]
  }

  lemma {:induction false} SeqSetSize(q: seq<PooledObject>)
    requires NoDuplicates(q)
    ensures |Elements(q)| == |q|
  {
    if q == [] {
    } else {
      var last := q[|q| - 1];
      SeqSetSize(q[..|q| - 1]);
      assert q == q[..|q| - 1] + [last];
      assert Elements(q) == Elements(q[..|q| - 1]) + {last};
      assert last !in q[..|q| - 1];
    }
  }

  lemma StoredSetStep(qs: Queues, n: nat, held: set<PooledObject>, home: map<PooledObject, nat>)
    requires 0 < n <= MAX_POOL_BUCKETS && Conserved(qs, held, home)
    ensures StoredSet(qs, home, n) == StoredSet(qs, home, n - 1) + Elements(qs[n - 1])
    ensures StoredSet(qs, home, n - 1) !! Elements(qs[n - 1])
  {
    var q := qs[n - 1];
    assert forall x :: x in q ==> x in home && home[x] == n - 1;
    assert forall x :: x in home && home[x] == n - 1 && x in qs[home[x]] ==> x in q;
  }

  lemma {:induction false} StoredSetSize(qs: Queues, n: nat, held: set<PooledObject>, home: map<PooledObject, nat>)
    requires n <= MAX_POOL_BUCKETS && Conserved(qs, held, home)
    ensures |StoredSet(qs, home, n)| == StoredBelow(qs, n)
  {
    if n == 0 {
      assert StoredSet(qs, home, 0) == {};
    } else {
      StoredSetSize(qs, n - 1, held, home);
      assert |Elements(qs[n - 1])| == |qs[n - 1]| by { SeqSetSize(qs[n - 1]); }
      StoredSetStep(qs, n, held, home);
    }
  }

  /** Conservation in numbers: objects made = objects stored + objects held. */
  lemma MadeIsStoredPlusHeld(qs: Queues, held: set<PooledObject>, home: map<PooledObject, nat>)
    requires Conserved(qs, held, home)
    ensures |home| == StoredBelow(qs, MAX_POOL_BUCKETS) + |held|
  {
    StoredSetSize(qs, MAX_POOL_BUCKETS, held, home);
    var stored := StoredSet(qs, home, MAX_POOL_BUCKETS);
    assert home.Keys == stored + held;
    assert stored !! held;
    assert |home| == |home.Keys|;
  }

  ghost function NonNull(q: Ring): (r: seq<PooledObject>)
    requires null !in q
    ensures q == r
  {
    q
  }

  /** An object nobody held left bucket b, which first made `minted`; it is the oldest there. */
  ghost predicate Took(qs: Queues, qs': Queues, held: set<PooledObject>, held': set<PooledObject>,
                       home': map<PooledObject, nat>, b: nat, obj: PooledObject, minted: seq<PooledObject>)
    requires b < MAX_POOL_BUCKETS
  {
    && obj !in held && held' == held + {obj} && obj in home' && home'[obj] == b
    && [obj] + qs'[b] == qs[b] + minted && qs' == qs[b := qs'[b]]
  }

  /** As in a bucket, or the reason for which the pool itself calls abort(). */
  datatype PoolOutcome = Bucket(o: Outcome) | WrongPool | BadBucketNumber

  type Counter = c: nat | c < 0x1_0000_0000

  class GeneralPool {
    const objSize: nat
    const buckets: seq<GeneralPoolBucket>
    const aborted: bool
    var counter: Counter
    ghost var home: map<PooledObject, nat>  // every object the pool ever made, and its bucket
    ghost var contents: Queues  // what each bucket holds
    ghost var held: set<PooledObject>  // those its callers hold
    ghost var Repr: set<object>  // the buckets and what they own

    ghost predicate Layout()
      reads this`Repr, buckets
    {
      && objSize < 0x1_0000_0000
      && |buckets| == MAX_POOL_BUCKETS
      && this !in Repr
      && (forall i :: 0 <= i < MAX_POOL_BUCKETS ==>
            buckets[i] in Repr && buckets[i].Repr <= Repr && buckets[i].stamp == Stamp(i, objSize))
      && (forall i, j :: 0 <= i < MAX_POOL_BUCKETS && 0 <= j < MAX_POOL_BUCKETS && i != j ==>
            buckets[i].Repr !! buckets[j].Repr)
      && (forall o :: o in Repr ==> !(o is PooledObject))
    }

    ghost predicate BucketsValid()
      requires Layout()
      reads this`Repr, this`contents, buckets, Repr
    {
      forall i :: 0 <= i < MAX_POOL_BUCKETS ==> buckets[i].Valid() && buckets[i].Queue() == contents[i]
    }

    ghost predicate Valid()
      reads this`home, this`contents, this`held, this`Repr, buckets, Repr
    {
      && Layout() && BucketsValid()
      && Conserved(contents, held, home)
      && forall x :: x in home ==> x.stamp == Stamp(home[x], objSize)
    }

    /** Runs the strategy on 64 new buckets. Preallocating more than a bucket can hold is
        the end of the process. */
    constructor (objSize: nat, strategy: Strategy)
      requires 0 < objSize < 0x1_0000_0000
      ensures this.objSize == objSize && counter == 0
      ensures aborted <==> strategy.preallocateCount / objSize > MAX_OBJECTS
      ensures !aborted ==> Valid() && held == {}
      ensures !aborted ==> forall i :: 0 <= i < MAX_POOL_BUCKETS ==>
                && |contents[i]| == strategy.preallocateCount / objSize
                && buckets[i].quantInc == QuantInc(strategy, objSize)
    {
      var bs, failed;
      ghost var qs, repr;
      bs, failed, qs, repr := MakeBuckets(objSize, strategy, strategy.preallocateCount / objSize,
                                          QuantInc(strategy, objSize));
      this.objSize, buckets, counter, aborted := objSize, bs, 0, failed;
      StampedIsSettled(qs, objSize);
      held, home, Repr := {}, HomeOf(qs), repr;
      contents := if failed then seq(MAX_POOL_BUCKETS, _ => []) else qs;
      new;
      if !failed {
        SettledIsConserved(contents, home);
        assert Layout() && BucketsValid();
      }
    }

    /** The ghost arguments are what the strategy comes to for this object size. */
    static method MakeBuckets(objSize: nat, strategy: Strategy, ghost preall: nat, ghost quant: nat)
      returns (bs: seq<GeneralPoolBucket>, failed: bool,
               ghost qs: seq<seq<PooledObject>>, ghost repr: set<object>)
      requires 0 < objSize < 0x1_0000_0000
      requires preall == strategy.preallocateCount / objSize && quant == QuantInc(strategy, objSize)
      ensures failed <==> preall > MAX_OBJECTS
      ensures |bs| <= MAX_POOL_BUCKETS && (!failed ==> |bs| == MAX_POOL_BUCKETS)
      ensures |bs| == |qs| && Stamped(qs, objSize)
      ensures forall i :: 0 <= i < |bs| ==>
                && bs[i].Valid() && bs[i].Queue() == qs[i] && |qs[i]| == preall
                && bs[i].Kept(quant, Stamp(i, objSize), i) && bs[i] in repr && bs[i].Repr <= repr
      ensures forall i, j :: 0 <= i < |bs| && 0 <= j < |bs| && i != j ==> bs[i].Repr !! bs[j].Repr
      ensures forall o :: o in repr ==> fresh(o) && !(o is PooledObject)
    {
      bs, failed, qs, repr := [], false, [], {};
      for cnt := 0 to MAX_POOL_BUCKETS
        invariant |bs| == |qs| == cnt && Stamped(qs, objSize)
        invariant cnt > 0 ==> preall <= MAX_OBJECTS
        invariant forall i :: 0 <= i < cnt ==>
                    && bs[i].Valid() && bs[i].Queue() == qs[i] && |qs[i]| == preall
                    && bs[i].Kept(quant, Stamp(i, objSize), i) && bs[i] in repr && bs[i].Repr <= repr
        invariant forall i, j :: 0 <= i < cnt && 0 <= j < cnt && i != j ==> bs[i].Repr !! bs[j].Repr
        invariant forall o :: o in repr ==> fresh(o) && !(o is PooledObject)
      {
        var bucket, o;
        ghost var made;
        bucket, o, made := NewBucket(cnt, objSize, strategy, preall, quant);
        if o != Done {
          failed := true;
          return;
        }
        StampedGrows(qs, made, objSize);
        qs := qs + [made];
        bs := bs + [bucket];
        repr := repr + bucket.Repr;
      }
    }

    static method NewBucket(cnt: nat, objSize: nat, strategy: Strategy, ghost preall: nat, ghost quant: nat)
      returns (bucket: GeneralPoolBucket, o: Outcome, ghost made: seq<PooledObject>)
      requires objSize > 0 && preall == strategy.preallocateCount / objSize && quant == QuantInc(strategy, objSize)
      ensures bucket.Valid() && bucket.Queue() == made && fresh(bucket.Repr)
      ensures bucket.Kept(quant, Stamp(cnt, objSize), cnt)
      ensures o == if preall > MAX_OBJECTS then NoMoreBuffers else Done
      ensures o.Done? ==> |made| == preall
      ensures NoDuplicates(made) && forall x :: x in made ==> fresh(x) && x.stamp == Stamp(cnt, objSize)
    {
      bucket := new GeneralPoolBucket(cnt, Stamp(cnt, objSize));
      o, made := bucket.SetStrategy(strategy, objSize);
    }

    /** Bookkeeping after a call into bucket b: the other buckets are as they were. */
    ghost method Resettle(b: nat)
      requires |buckets| == MAX_POOL_BUCKETS && b < MAX_POOL_BUCKETS && objSize < 0x1_0000_0000
      requires this !in Repr && this !in buckets[b].Repr && forall o :: o in Repr ==> !(o is PooledObject)
      requires buckets[b].Valid() && buckets[b] in Repr && buckets[b].stamp == Stamp(b, objSize)
      requires forall i :: 0 <= i < MAX_POOL_BUCKETS && i != b ==>
                 && buckets[i] in Repr && buckets[i].Repr <= Repr && buckets[i].stamp == Stamp(i, objSize)
                 && buckets[i].Valid() && buckets[i].Queue() == contents[i]
      requires forall i, j :: 0 <= i < MAX_POOL_BUCKETS && 0 <= j < MAX_POOL_BUCKETS && i != j ==>
                 buckets[i].Repr !! buckets[j].Repr
      modifies this`Repr, this`contents
      ensures Layout() && BucketsValid() && Repr == old(Repr) + buckets[b].Repr
      ensures contents == old(contents)[b := contents[b]] && contents[b] == buckets[b].Queue()
    {
      Repr := Repr + buckets[b].Repr;
      contents := contents[b := NonNull(buckets[b].Queue())];
    }

    /** One call into bucket b that takes an object out. */
    method TakeFrom(b: nat) returns (o: Outcome, obj: PooledObject?, ghost minted: seq<PooledObject>)
      requires Layout() && BucketsValid() && b < MAX_POOL_BUCKETS
      modifies this, Repr
      ensures o == if old(contents)[b] != [] || 0 < old(buckets[b].quantInc) <= MAX_OBJECTS then Done
                   else if old(buckets[b].quantInc) > 0 then NoMoreBuffers
                   else if old(|buckets[b].buffers|) == 0 then UnsetBuffer else NullSlot
      ensures counter == old(counter) && home == old(home) && held == old(held)
      ensures o.Done? ==>
                && Layout() && BucketsValid() && fresh(Repr - old(Repr)) && obj != null
                && [obj] + contents[b] == old(contents)[b] + minted
                && contents == old(contents)[b := contents[b]]
                && |minted| == (if old(contents)[b] == [] then old(buckets[b].quantInc) else 0)
      ensures NoDuplicates(minted) && forall x :: x in minted ==> fresh(x) && x.stamp == Stamp(b, objSize)
    {
      o, obj, minted := buckets[b].GetNoLock();
      if o.Done? {
        forall i | 0 <= i < MAX_POOL_BUCKETS && i != b
          ensures buckets[i].Valid() && buckets[i].Queue() == contents[i] && buckets[i].Repr == old(buckets[i].Repr)
        {
          assert old(buckets[i].Repr !! buckets[b].Repr);
          buckets[i].Framed();
        }
        Resettle(b);
      }
    }

    /** One call into bucket b that puts an object in. */
    method PutInto(b: nat, obj: PooledObject) returns (o: Outcome)
      requires Layout() && BucketsValid() && b < MAX_POOL_BUCKETS
      modifies this, Repr
      ensures o == if |old(contents)[b]| == MAX_OBJECTS then NoMoreBuffers else Done
      ensures counter == old(counter) && home == old(home) && held == old(held)
      ensures Layout() && BucketsValid() && fresh(Repr - old(Repr))
      ensures o.Done? ==> contents == old(contents)[b := old(contents)[b] + [obj]]
    {
      o := buckets[b].PutNoLock(obj);
      forall i | 0 <= i < MAX_POOL_BUCKETS && i != b
        ensures buckets[i].Valid() && buckets[i].Queue() == contents[i] && buckets[i].Repr == old(buckets[i].Repr)
      {
        assert old(buckets[i].Repr !! buckets[b].Repr);
        buckets[i].Framed();
      }
      Resettle(b);
    }

    /** `get(pool_)`: takes from one bucket, which first makes `minted` when it is empty. An
        outcome other than Done is the end of the process. */
    method GetFrom(b: nat) returns (o: PoolOutcome, obj: PooledObject?, ghost minted: seq<PooledObject>)
      requires Valid() && b < MAX_POOL_BUCKETS
      modifies this, Repr
      ensures counter == old(counter)
      ensures o == Bucket(Done) <==> old(Stocked(b))
      ensures o == Bucket(Done) ==> Valid() && fresh(Repr - old(Repr)) && obj != null
      ensures o == Bucket(Done) ==>
                && Took(old(contents), contents, old(held), held, home, b, obj, minted)
                && |minted| == (if old(contents)[b] == [] then old(buckets[b].quantInc) else 0)
                && home == WithHome(old(home), minted, b)
    {
      ghost var qs := contents;
      var bo;
      bo, obj, minted := TakeFrom(b);
      o := Bucket(bo);
      if bo.Done? {
        RecordGet(qs, b, obj, minted);
      }
    }

    /** Bookkeeping: `obj` left bucket b, which first made `minted`. */
    ghost method RecordGet(qs: Queues, b: nat, obj: PooledObject, minted: seq<PooledObject>)
      requires Layout() && BucketsValid() && Conserved(qs, held, home) && b < MAX_POOL_BUCKETS
      requires forall x :: x in home ==> x.stamp == Stamp(home[x], objSize)
      requires NoDuplicates(minted) && forall x :: x in minted ==> x !in home && x.stamp == Stamp(b, objSize)
      requires [obj] + contents[b] == qs[b] + minted && contents == qs[b := contents[b]]
      modifies this`home, this`held
      ensures Valid()
      ensures obj !in old(held) && held == old(held) + {obj} && obj in home && home[obj] == b
      ensures home == WithHome(old(home), minted, b)
    {
      GetConserves(qs, b, obj, contents[b], minted, held, home);
      StampsKept(home, minted, b, objSize);
      home := WithHome(home, minted, b);
      held := held + {obj};
    }

    /** Bucket b has an object to give, or may make some. */
    ghost predicate Stocked(b: nat)
      requires b < |buckets| && b < MAX_POOL_BUCKETS
      reads this`contents, buckets[b]
    {
      contents[b] != [] || 0 < buckets[b].quantInc <= MAX_OBJECTS
    }

    /** The counter names the bucket and moves on, in 32 bits. */
    method NextTurn() returns (turn: nat)
      requires Valid()
      modifies this`counter
      ensures Valid() && turn == old(counter) % 64 && counter == (old(counter) + 1) % 0x1_0000_0000
      ensures turn < MAX_POOL_BUCKETS && (Stocked(turn) <==> old(Stocked(counter % 64)))
    {
      turn := counter % 64;
      counter := (counter + 1) % 0x1_0000_0000;
    }

    /** `get()`: round robin over the buckets; b is the bucket whose turn it was. */
    method Get() returns (o: PoolOutcome, obj: PooledObject?, ghost b: nat, ghost minted: seq<PooledObject>)
      requires Valid()
      modifies this, Repr
      ensures counter == (old(counter) + 1) % 0x1_0000_0000 && b == old(counter) % 64
      ensures o == Bucket(Done) <==> old(Stocked(counter % 64))
      ensures o == Bucket(Done) ==> Valid() && fresh(Repr - old(Repr)) && obj != null
      ensures o == Bucket(Done) ==> Took(old(contents), contents, old(held), held, home, b, obj, minted)
    {
      var localCounter := NextTurn();
      b := localCounter;
      o, obj, minted := GetFrom(localCounter);
    }

    /** Decodes the stamp and puts the object back where it came from. */
    method Put(obj: PooledObject) returns (o: PoolOutcome)
      requires Valid() && obj in held
      modifies this, Repr
      ensures o == WrongPool <==> objSize >= 0x100_0000
      ensures o == Bucket(Done) <==> objSize < 0x100_0000 && |old(contents[home[obj]])| < MAX_OBJECTS
      ensures o != BadBucketNumber && (o == WrongPool ==> held == old(held) && contents == old(contents))
      ensures o == Bucket(Done) ==>
                && Valid() && fresh(Repr - old(Repr)) && counter == old(counter)
                && held == old(held) - {obj} && home == old(home)
                && contents == old(contents)[home[obj] := old(contents)[home[obj]] + [obj]]
    {
      StampRoundTrip(home[obj], objSize);
      var bucketSize, bucketNumber := StampSize(obj.stamp), StampBucket(obj.stamp);
      if bucketSize != objSize {
        return WrongPool;
      }
      if bucketNumber >= MAX_POOL_BUCKETS {
        assert false;
        return BadBucketNumber;
      }
      var bo := PutHome(bucketNumber, obj);
      o := Bucket(bo);
    }

    /** A held object goes back to the bucket that made it. */
    method PutHome(b: nat, obj: PooledObject) returns (o: Outcome)
      requires Valid() && obj in held && home[obj] == b && b < MAX_POOL_BUCKETS
      modifies this, Repr
      ensures o == if |old(contents)[b]| == MAX_OBJECTS then NoMoreBuffers else Done
      ensures o.Done? ==>
                && Valid() && fresh(Repr - old(Repr)) && counter == old(counter)
                && held == old(held) - {obj} && home == old(home)
                && contents == old(contents)[b := old(contents)[b] + [obj]]
    {
      PutConserves(contents, b, obj, held, home);
      o := PutInto(b, obj);
      if o.Done? {
        held := held - {obj};
      }
    }
  }
}
