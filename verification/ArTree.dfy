/** The tree object (lib/pmem/ARTree.cpp): every operation is proved to act on the
    abstract index exactly as its specification in ValueIndex says. */
module ArTrees {
  import opened Basics
  import opened ValueIndex
  import opened TrieNodes
  import opened TrieSize

  /** Positions of the nodes that have children. */
  ghost function ExpandedNodes(pool: Pool): set<nat> {
    set i: nat | i < |pool| && pool[i].Node256? && |pool[i].children| == 256 && pool[i].children[0] != 0
  }

  lemma ExpandAddsOne(pool: Pool, i: nat)
    requires PoolOk(pool) && Expandable(pool, i)
    ensures |ExpandedNodes(Expand(pool, i))| == |ExpandedNodes(pool)| + 1
  {
    assert NodeOk(pool, i);
    assert ExpandedNodes(Expand(pool, i)) == ExpandedNodes(pool) + {i};
  }

  lemma SetChildAddsNone(pool: Pool, leaf: nat, w: nat)
    requires leaf < |pool| && pool[leaf].Leaf?
    ensures ExpandedNodes(SetChild(pool, leaf, w)) == ExpandedNodes(pool)
  {
  }

  /** Everything about the shape of the tree: well formed, root expanded, and the three
      ways of counting nodes agree. */
  ghost predicate Shape(pool: Pool) {
    && PoolOk(pool) && |pool[0].children| == 256 && pool[0].children[0] != 0
    && SizeFrom(pool, 0, false) == |pool| == 1 + 256 * |ExpandedNodes(pool)|
  }

  lemma ExpandKeepsShape(pool: Pool, i: nat)
    requires Shape(pool) && Expandable(pool, i)
    ensures Shape(Expand(pool, i))
    ensures forall k: Key :: WrapperPtr(Expand(pool, i), k) == WrapperPtr(pool, k)
  {
    ExpandOk(pool, i);
    ExpandRootSize(pool, i);
    ExpandAddsOne(pool, i);
    forall k: Key ensures WrapperPtr(Expand(pool, i), k) == WrapperPtr(pool, k) {
      ExpandKeepsWrappers(pool, i, k);
    }
  }

  lemma SetChildKeepsShape(pool: Pool, key: Key, w: nat)
    requires Shape(pool) && NodeAt(pool, key, 8).Some?
    ensures var leaf := NodeAt(pool, key, 8).value;
            && pool[leaf].Leaf? && Shape(SetChild(pool, leaf, w))
            && forall k: Key :: WrapperPtr(SetChild(pool, leaf, w), k) ==
                                if k == key then w else WrapperPtr(pool, k)
  {
    var leaf := NodeAt(pool, key, 8).value;
    assert NodeOk(pool, leaf);
    SetChildOk(pool, leaf, w);
    SetChildSize(pool, leaf, w, 0);
    SetChildAddsNone(pool, leaf, w);
    forall k: Key
      ensures WrapperPtr(SetChild(pool, leaf, w), k) == if k == key then w else WrapperPtr(pool, k)
    {
      SetChildWrappers(pool, key, w, k);
    }
  }

  /** The pool and the wrappers together hold exactly the index, one wrapper per key. */
  ghost predicate Holds(pool: Pool, wrappers: seq<Wrapper>, index: Index)
    requires PoolOk(pool)
  {
    && (forall k: Key :: WrapperPtr(pool, k) <= |wrappers|)
    && (forall k: Key :: k in index <==> WrapperPtr(pool, k) != 0)
    && (forall k: Key :: k in index ==> index[k] == wrappers[WrapperPtr(pool, k) - 1])
    && (forall k1: Key, k2: Key :: k1 != k2 && WrapperPtr(pool, k1) == WrapperPtr(pool, k2) ==>
                                     WrapperPtr(pool, k1) == 0)
  }

  lemma UpdateHolds(pool: Pool, wrappers: seq<Wrapper>, index: Index, key: Key, w: Wrapper)
    requires PoolOk(pool) && Holds(pool, wrappers, index) && key in index
    ensures 0 < WrapperPtr(pool, key) <= |wrappers|
    ensures Holds(pool, wrappers[WrapperPtr(pool, key) - 1 := w], index[key := w])
  {
  }

  lemma AddHolds(pool: Pool, pool': Pool, wrappers: seq<Wrapper>, index: Index, key: Key, w: Wrapper)
    requires PoolOk(pool) && PoolOk(pool') && Holds(pool, wrappers, index) && key !in index
    requires forall k: Key :: WrapperPtr(pool', k) == if k == key then |wrappers| + 1 else WrapperPtr(pool, k)
    ensures Holds(pool', wrappers + [w], index[key := w])
  {
  }

  class ArTree {
    var pool: Pool
    var wrappers: seq<Wrapper>
    var initialized: bool
    ghost var index: Index
    ghost var allocCalls: nat  // calls of AllocValueForKey so far

    ghost predicate Valid()
      reads this
    {
      && Shape(pool) && Holds(pool, wrappers, index)
      && |pool| <= 257 + 7 * 256 * allocCalls
    }

    constructor ()
      ensures Valid() && index == map[] && allocCalls == 0 && |pool| == 257
    {
      pool := [Node256(0, 0, seq(256, _ => 0))];
      wrappers, initialized := [], false;
      index, allocCalls := map[], 0;
      new;
      RootAlone();
      AllocateFullLevels(0);
    }

    static lemma RootAlone()
      ensures var p := [Node256(0, 0, seq(256, _ => 0))];
              && PoolOk(p) && Shape(Expand(p, 0)) && Holds(Expand(p, 0), [], map[])
    {
      var p := [Node256(0, 0, seq(256, _ => 0))];
      assert PoolOk(p);
      ExpandOk(p, 0);
      ExpandRootSize(p, 0);
      ExpandAddsOne(p, 0);
      assert ExpandedNodes(p) == {};
      forall k: Key ensures WrapperPtr(Expand(p, 0), k) == 0 {
        ExpandKeepsWrappers(p, 0, k);
      }
    }

    /** One level below node i, 256 nodes at once. */
    method AllocateFullLevels(i: nat)
      requires i < |pool| && pool[i].Node256? && |pool[i].children| == 256
      modifies this`pool
      ensures pool == Expand(old(pool), i)
    {
      var depth := pool[i].depth + 1;
      var first := |pool|;
      for b := 0 to 256
        invariant |pool| == first + b
        invariant forall j :: 0 <= j < first && j != i ==> pool[j] == old(pool)[j]
        invariant pool[i].Node256? && pool[i].depth == depth - 1 && pool[i].parent == old(pool)[i].parent
        invariant |pool[i].children| == 256 && forall c :: 0 <= c < b ==> pool[i].children[c] == first + c
        invariant forall j :: first <= j < first + b ==> pool[j] == FreshChild(depth, i)
      {
        pool := pool[i := pool[i].(children := pool[i].children[b := first + b])] + [FreshChild(depth, i)];
      }
      assert pool[i].children == FirstChildren(first);
      assert pool == Expand(old(pool), i);
    }

    /** A new wrapper on the key's leaf. */
    method HangWrapper(key: Key, leaf: nat)
      requires Shape(pool) && Holds(pool, wrappers, index)
      requires NodeAt(pool, key, 8) == Some(leaf) && pool[leaf].Leaf? && pool[leaf].child == 0
      modifies this`pool, this`wrappers, this`index
      ensures Shape(pool) && Holds(pool, wrappers, index) && |pool| == |old(pool)|
      ensures key !in old(index) && index == old(index)[key := NEW_WRAPPER]
      ensures leaf < |pool| && pool[leaf].Leaf? && pool[leaf].child == WrapperPtr(pool, key)
    {
      SetChildKeepsShape(pool, key, |wrappers| + 1);
      pool := pool[leaf := pool[leaf].(child := |wrappers| + 1)];
      AddHolds(old(pool), pool, wrappers, index, key, NEW_WRAPPER);
      wrappers := wrappers + [NEW_WRAPPER];
      index := index[key := NEW_WRAPPER];
    }

    /** The missing level below a node on the key's path. */
    method AllocateSubtree(key: Key, node: nat)
      requires Shape(pool) && Holds(pool, wrappers, index) && Expandable(pool, node)
      requires pool[node].depth < 8 && OnPath(pool, key, node)
      modifies this`pool
      ensures Shape(pool) && Holds(pool, wrappers, index) && |pool| == |old(pool)| + 256
      ensures OnPath(pool, key, node) && pool[node].depth == old(pool[node].depth)
      ensures pool[node].Node256? && |pool[node].children| == 256
      ensures pool[node].children[KeyByte(key, pool[node].depth)] != 0
    {
      ExpandKeepsShape(pool, node);
      ExpandKeepsPaths(pool, node, key, pool[node].depth);
      AllocateFullLevels(node);
    }

    /** Walks to the key's leaf. With `allocate`, missing levels and a missing wrapper are
        made on the way, as long as the allocator grants them (`grants` reservations in
        all); ok is false when it ran out. */
    method FindValueInNode(key: Key, allocate: bool, grants: nat) returns (w: nat, ok: bool, left: nat)
      requires Shape(pool) && Holds(pool, wrappers, index)
      modifies this`pool, this`wrappers, this`index
      ensures Shape(pool) && Holds(pool, wrappers, index) && |pool| <= |old(pool)| + 7 * 256
      ensures !allocate || key in old(index) ==>
                ok && left == grants && pool == old(pool) && wrappers == old(wrappers) && index == old(index)
      ensures ok ==> w == WrapperPtr(pool, key)
      ensures ok && allocate && key !in old(index) ==> index == old(index)[key := NEW_WRAPPER]
      ensures !ok ==> index == old(index)
      ensures left <= grants && (ok ==> grants <= left + 8) && (grants >= 8 ==> ok)
    {
      var current: nat := 0;
      left := grants;
      while true
        invariant Shape(pool) && Holds(pool, wrappers, index) && wrappers == old(wrappers) && index == old(index)
        invariant OnPath(pool, key, current)
        invariant !allocate || key in old(index) ==> left == grants && pool == old(pool)
        invariant left <= grants && |pool| == |old(pool)| + 256 * (grants - left)
        invariant grants - left <= if pool[current].depth == 0 then 0 else pool[current].depth - 1
        decreases 8 - pool[current].depth
      {
        assert NodeOk(pool, current);
        var depth := pool[current].depth;
        if depth == 8 {
          if pool[current].child == 0 && allocate {
            if left == 0 {
              return 0, false, 0;
            }
            left := left - 1;
            HangWrapper(key, current);
          }
          return pool[current].child, true, left;
        }
        StepDown(pool, key, current);
        var keyCalc := KeyByte(key, depth);
        if !allocate && pool[current].children[keyCalc] != 0 {
          current := pool[current].children[keyCalc];
        } else if allocate {
          if pool[current].children[keyCalc] == 0 {
            if left == 0 {
              return 0, false, 0;
            }
            left := left - 1;
            AllocateSubtree(key, current);
            StepDown(pool, key, current);
          }
          current := pool[current].children[keyCalc];
        } else {
          return 0, true, left;
        }
      }
    }

    /** Overwrites the wrapper of a key that has one. */
    method SetWrapper(key: Key, w: nat, value: Wrapper)
      requires Valid() && w == WrapperPtr(pool, key) && w != 0
      modifies this`wrappers, this`index
      ensures Valid() && index == old(index)[key := value]
    {
      UpdateHolds(pool, wrappers, index, key, value);
      wrappers := wrappers[w - 1 := value];
      index := index[key := value];
    }

    method Get(key: Key) returns (a: Answer)
      requires Valid()
      modifies this`pool, this`wrappers, this`index
      ensures Valid() && pool == old(pool) && wrappers == old(wrappers) && index == old(index)
      ensures a == ValueIndex.Get(index, key)
    {
      var w, ok, left := FindValueInNode(key, false, 0);
      if w == 0 {
        return KeyNotFound;
      }
      var v := wrappers[w - 1];
      if v.location == PMEM && v.locationVolatile != EMPTY {
        a := Found(v.location, v.ptr, v.size);
      } else if v.location == DISK {
        a := Found(v.location, v.ptr, v.size);
      } else {
        a := KeyNotFound;
      }
    }

    method Put(key: Key) returns (a: Answer)
      requires Valid()
      modifies this
      ensures Valid() && pool == old(pool) && allocCalls == old(allocCalls)
      ensures (index, a) == ValueIndex.Put(old(index), key)
    {
      var w, ok, left := FindValueInNode(key, false, 0);
      if w == 0 {
        return KeyNotFound;
      }
      if !initialized {
        initialized := true;
      }
      MoveToMemory(key, w);
      a := Ok;
    }

    method MoveToMemory(key: Key, w: nat)
      requires Valid() && w == WrapperPtr(pool, key) && w != 0
      modifies this`wrappers, this`index
      ensures Valid() && (index, Ok) == ValueIndex.Put(old(index), key)
    {
      SetWrapper(key, w, wrappers[w - 1].(locationVolatile := PMEM, location := PMEM));
    }

    /** The wrapper a removed key leaves behind is not reused for anything else. */
    method Remove(key: Key) returns (a: Answer)
      requires Valid()
      modifies this
      ensures Valid() && pool == old(pool) && allocCalls == old(allocCalls)
      ensures (index, a) == ValueIndex.Remove(old(index), key)
    {
      var w, ok, left := FindValueInNode(key, false, 0);
      if w == 0 || wrappers[w - 1].location == EMPTY {
        return KeyNotFound;
      }
      SetWrapper(key, w, wrappers[w - 1].(location := EMPTY));
      a := Ok;
    }

    /** `grants` is how many reservations the pool grants this call; `addr` is where the
        value would go. The ghost result says how far the call got. */
    method AllocValueForKey(key: Key, size: nat, grants: nat, addr: nat) returns (a: Answer, ghost g: Grant)
      requires Valid()
      modifies this
      ensures Valid() && allocCalls == old(allocCalls) + 1
      ensures |pool| <= |old(pool)| + 7 * 256
      ensures (index, a) == ValueIndex.Alloc(old(index), key, size, g)
      ensures g.Granted? ==> g.addr == addr
      ensures grants >= 9 || (key in old(index) && grants >= 1) ==> g.Granted?
    {
      var w, ok, left := FindOrAddWrapper(key, grants);
      if !ok {
        return AllocationError, NoWrapper;
      }
      g := GrantFor(left, addr);
      if key !in old(index) { WrapperFirst(old(index), key, size, g); }
      a := ReserveValue(key, w, size, left, addr);
    }

    /** First the wrapper, with the nodes on its path. */
    method FindOrAddWrapper(key: Key, grants: nat) returns (w: nat, ok: bool, left: nat)
      requires Valid()
      modifies this
      ensures Valid() && allocCalls == old(allocCalls) + 1 && |pool| <= |old(pool)| + 7 * 256
      ensures ok ==> w == WrapperPtr(pool, key) && w != 0
      ensures key in old(index) ==> ok && left == grants && index == old(index)
      ensures key !in old(index) ==> index == if ok then old(index)[key := NEW_WRAPPER] else old(index)
      ensures left <= grants && (ok ==> grants <= left + 8) && (grants >= 8 ==> ok)
    {
      allocCalls := allocCalls + 1;
      w, ok, left := FindValueInNode(key, true, grants);
    }

    /** What is left of the grants decides about the value itself. */
    static function GrantFor(left: nat, addr: nat): (g: Grant)
      ensures !g.NoWrapper? && (g.Granted? <==> left > 0) && (g.Granted? ==> g.addr == addr)
    {
      if left > 0 then Granted(addr) else NoValue
    }

    /** The value itself, for a key that has a wrapper. */
    method ReserveValue(key: Key, w: nat, size: nat, left: nat, addr: nat) returns (a: Answer)
      requires Valid() && w == WrapperPtr(pool, key) && w != 0
      modifies this`wrappers, this`index
      ensures Valid()
      ensures (index, a) == ValueIndex.Alloc(old(index), key, size, GrantFor(left, addr))
    {
      var v := wrappers[w - 1];
      if v.location != EMPTY {
        return AllocationError;
      }
      if left == 0 {
        SetWrapper(key, w, v.(ptr := Null));
        return AllocationError;
      }
      SetWrapper(key, w, v.(ptr := Memory(addr), size := size));
      a := Reserved(addr);
    }

    static lemma WrapperFirst(m: Index, key: Key, size: nat, g: Grant)
      requires key !in m && !g.NoWrapper?
      ensures ValueIndex.Alloc(m[key := NEW_WRAPPER], key, size, g) == ValueIndex.Alloc(m, key, size, g)
    {
      var w := NEW_WRAPPER.(ptr := if g.Granted? then Memory(g.addr) else Null, size := if g.Granted? then size else 0);
      assert m[key := NEW_WRAPPER][key := w] == m[key := w];
    }

    /** `granted`: there is memory for the device address. The result of that reservation is
        dereferenced without a look. */
    method AllocateAndUpdateValueWrapper(key: Key, devAddr: DeviceAddr, granted: bool) returns (a: Answer)
      requires Valid()
      modifies this
      ensures Valid() && pool == old(pool) && allocCalls == old(allocCalls)
      ensures granted || key !in old(index) ==> (index, a) == Publish(old(index), key, devAddr)
      ensures !granted && key in old(index) ==> a == NullDereference && index == Point(old(index), key, Null)
    {
      var w, ok, left := FindValueInNode(key, false, 0);
      if w == 0 {
        return AllocationError;
      }
      OverwriteUnion(key, w, if granted then Device(devAddr) else Null);
      if !granted {
        return NullDereference;
      }
      MoveToDisk(key, w);
      PointedFirst(old(index), key, devAddr);
      a := Ok;
    }

    static lemma PointedFirst(m: Index, key: Key, devAddr: DeviceAddr)
      requires key in m
      ensures var p := Point(m, key, Device(devAddr));
              (p[key := p[key].(location := DISK)], Ok) == Publish(m, key, devAddr)
    {
      var p := Point(m, key, Device(devAddr));
      assert p[key := p[key].(location := DISK)] == Publish(m, key, devAddr).0;
    }

    method OverwriteUnion(key: Key, w: nat, p: Pointer)
      requires Valid() && w == WrapperPtr(pool, key) && w != 0
      modifies this`wrappers, this`index
      ensures Valid() && key in old(index) && index == Point(old(index), key, p)
    {
      SetWrapper(key, w, wrappers[w - 1].(ptr := p));
    }

    method MoveToDisk(key: Key, w: nat)
      requires Valid() && w == WrapperPtr(pool, key) && w != 0
      modifies this`wrappers, this`index
      ensures Valid() && key in old(index) && index == old(index)[key := old(index)[key].(location := DISK)]
    {
      SetWrapper(key, w, wrappers[w - 1].(location := DISK));
    }

    /** Closing and reopening the pool: volatile fields start over. */
    method Reopen()
      requires Valid()
      modifies this
      ensures Valid() && pool == old(pool) && allocCalls == old(allocCalls)
      ensures index == Restart(old(index))
    {
      var ws := wrappers;
      wrappers := seq(|ws|, i requires 0 <= i < |ws| => ws[i].(locationVolatile := EMPTY));
      index := Restart(index);
    }

    method GetTreeSize(current: nat, leavesOnly: bool) returns (size: nat)
      requires Valid() && current < |pool|
      ensures size == SizeFrom(pool, current, leavesOnly)
      ensures current == 0 && !leavesOnly ==> size == |pool| == 1 + 256 * |ExpandedNodes(pool)|
      decreases 8 - pool[current].depth
    {
      assert NodeOk(pool, current);
      size := 0;
      match pool[current]
      case Leaf(_, _, _) => size := 1;
      case Node256(_, _, children) =>
        for i := 0 to 256
          invariant size == if children[0] == 0 then 0 else SizeOfFirst(pool, current, leavesOnly, i)
        {
          if children[i] != 0 {
            var sub := GetTreeSize(children[i], leavesOnly);
            size := size + sub;
          }
        }
        if !leavesOnly {
          size := size + 1;
        }
    }
  }
}
