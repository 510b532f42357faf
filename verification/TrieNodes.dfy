/** The 256-way radix trie as it lies in the persistent pool (lib/pmem/ARTree.cpp,
    lib/pmem/ARTree.h). A persistent pointer is an index into the pool; 0 is the root,
    which is nobody's child, so 0 also stands for the null pointer. */
module TrieNodes {
  import opened Basics
  import opened ValueIndex

  const KEY_SIZE: nat := 8  // levels above the leaves, one byte each

  datatype Node =
    | Node256(depth: nat, parent: nat, children: seq<nat>)
    | Leaf(depth: nat, parent: nat, child: nat)  // child: 0, or 1 + a wrapper's index

  type Pool = seq<Node>

  /** Children come in blocks of 256 consecutive nodes, or not at all. */
  ghost predicate NodeOk(pool: Pool, i: nat)
    requires i < |pool|
  {
    match pool[i]
    case Leaf(depth, _, _) => depth == 8
    case Node256(depth, _, children) =>
      && depth < 8 && |children| == 256
      && (children[0] == 0 ==> forall b :: 0 <= b < 256 ==> children[b] == 0)
      && (children[0] != 0 ==>
            && i < children[0] <= |pool| - 256
            && forall b :: 0 <= b < 256 ==>
                 && children[b] == children[0] + b
                 && pool[children[b]].depth == depth + 1
                 && pool[children[b]].parent == i)
  }

  /** Every node but the root is one of its parent's children. */
  ghost predicate ParentOk(pool: Pool, i: nat)
    requires i < |pool|
  {
    i > 0 ==>
      var p := pool[i].parent;
      && p < i && pool[p].Node256? && pool[p].depth + 1 == pool[i].depth
      && |pool[p].children| == 256 && 0 < pool[p].children[0] <= i < pool[p].children[0] + 256
  }

  ghost predicate PoolOk(pool: Pool) {
    && |pool| > 0 && pool[0].Node256? && pool[0].depth == 0
    && forall i :: 0 <= i < |pool| ==> NodeOk(pool, i) && ParentOk(pool, i)
  }

  /** The byte of the key that picks the child of a node at `depth`. */
  function KeyByte(key: Key, depth: nat): (b: Byte)
    requires depth < 8
  {
    key[8 - depth - 1]
  }

  /** The node at depth d on the key's path, if the path goes that far. */
  ghost function NodeAt(pool: Pool, key: Key, d: nat): (r: Option<nat>)
    requires PoolOk(pool) && d <= 8
    ensures r.Some? ==> r.value < |pool| && pool[r.value].depth == d
  {
    if d == 0 then Some(0)
    else
      var p := NodeAt(pool, key, d - 1);
      if p.None? then None
      else
        assert NodeOk(pool, p.value);
        var c := pool[p.value].children[KeyByte(key, d - 1)];
        if c == 0 then None else Some(c)
  }

  /** The key's wrapper: 0, or 1 + its index. */
  ghost function WrapperPtr(pool: Pool, key: Key): (w: nat)
    requires PoolOk(pool)
  {
    var leaf := NodeAt(pool, key, 8);
    if leaf.None? then 0 else assert NodeOk(pool, leaf.value); pool[leaf.value].child
  }

  ghost predicate OnPath(pool: Pool, key: Key, i: nat)
    requires PoolOk(pool)
  {
    i < |pool| && pool[i].depth <= 8 && NodeAt(pool, key, pool[i].depth) == Some(i)
  }

  lemma StepDown(pool: Pool, key: Key, i: nat)
    requires PoolOk(pool) && OnPath(pool, key, i) && pool[i].depth < 8
    ensures pool[i].Node256? && |pool[i].children| == 256
    ensures var c := pool[i].children[KeyByte(key, pool[i].depth)];
            if c == 0 then Expandable(pool, i) && WrapperPtr(pool, key) == 0
            else OnPath(pool, key, c) && pool[c].depth == pool[i].depth + 1
  {
    assert NodeOk(pool, i);
    if pool[i].children[KeyByte(key, pool[i].depth)] == 0 { ShortPath(pool, key, pool[i].depth + 1); }
  }

  /** A path that stops short ends at no wrapper. */
  lemma {:induction false} ShortPath(pool: Pool, key: Key, d: nat)
    requires PoolOk(pool) && d <= 8 && NodeAt(pool, key, d).None?
    ensures WrapperPtr(pool, key) == 0
    decreases 8 - d
  {
    if d < 8 { ShortPath(pool, key, d + 1); }
  }

  /** Keys that meet at depth d agree on the d bytes read so far. */
  lemma {:induction false} SharedNode(pool: Pool, k1: Key, k2: Key, d: nat)
    requires PoolOk(pool) && d <= 8
    requires NodeAt(pool, k1, d).Some? && NodeAt(pool, k1, d) == NodeAt(pool, k2, d)
    ensures k1[8 - d..] == k2[8 - d..]
  {
    if d > 0 {
      SharedParent(pool, k1, k2, d - 1);
      SharedNode(pool, k1, k2, d - 1);
      assert k1[8 - d..] == [k1[8 - d]] + k1[8 - (d - 1)..];
      assert k2[8 - d..] == [k2[8 - d]] + k2[8 - (d - 1)..];
    }
  }

  /** A node below the root was reached from its one parent, by one byte. */
  lemma SharedParent(pool: Pool, k1: Key, k2: Key, d: nat)
    requires PoolOk(pool) && d < 8
    requires NodeAt(pool, k1, d + 1).Some? && NodeAt(pool, k1, d + 1) == NodeAt(pool, k2, d + 1)
    ensures NodeAt(pool, k1, d).Some? && NodeAt(pool, k1, d) == NodeAt(pool, k2, d)
    ensures KeyByte(k1, d) == KeyByte(k2, d)
  {
    var p1, p2 := NodeAt(pool, k1, d).value, NodeAt(pool, k2, d).value;
    assert NodeOk(pool, p1) && NodeOk(pool, p2);
    OneParent(pool, p1, KeyByte(k1, d), p2, KeyByte(k2, d));
  }

  lemma OneParent(pool: Pool, p1: nat, b1: nat, p2: nat, b2: nat)
    requires p1 < |pool| && p2 < |pool| && NodeOk(pool, p1) && NodeOk(pool, p2) && b1 < 256 && b2 < 256
    requires pool[p1].Node256? && pool[p2].Node256? && pool[p1].children[b1] == pool[p2].children[b2] != 0
    ensures p1 == p2 && b1 == b2
  {
    assert pool[pool[p1].children[b1]].parent == p1;
  }

  /** Distinct keys never share a leaf. */
  lemma DistinctLeaves(pool: Pool, k1: Key, k2: Key)
    requires PoolOk(pool) && k1 != k2 && NodeAt(pool, k1, 8).Some?
    ensures NodeAt(pool, k1, 8) != NodeAt(pool, k2, 8)
  {
    assert k1[0..] == k1 && k2[0..] == k2;
    if NodeAt(pool, k1, 8) == NodeAt(pool, k2, 8) {
      SharedNode(pool, k1, k2, 8);
    }
  }

  // ---- Expanding a node: 256 children at once ----

  function FreshChild(depth: nat, parent: nat): (n: Node) {
    if depth == 8 then Leaf(8, parent, 0) else Node256(depth, parent, seq(256, _ => 0))
  }

  function FirstChildren(base: nat): (c: seq<nat>)
    ensures |c| == 256 && forall b :: 0 <= b < 256 ==> c[b] == base + b
  {
    seq(256, b => base + b)
  }

  function Expand(pool: Pool, i: nat): (r: Pool)
    requires i < |pool| && pool[i].Node256?
    ensures |r| == |pool| + 256
  {
    var n := pool[i];
    pool[i := n.(children := FirstChildren(|pool|))] + seq(256, _ => FreshChild(n.depth + 1, i))
  }

  predicate Expandable(pool: Pool, i: nat) {
    i < |pool| && pool[i].Node256? && |pool[i].children| == 256 && pool[i].children[0] == 0
  }

  lemma ExpandOk(pool: Pool, i: nat)
    requires PoolOk(pool) && Expandable(pool, i)
    ensures PoolOk(Expand(pool, i))
  {
    var r := Expand(pool, i);
    assert NodeOk(pool, i);
    assert forall c :: |pool| <= c < |r| ==> r[c] == FreshChild(pool[i].depth + 1, i);
    assert forall j :: 0 <= j < |pool| ==> r[j].depth == pool[j].depth && r[j].parent == pool[j].parent;
    forall j | 0 <= j < |r| ensures NodeOk(r, j) && ParentOk(r, j) {
      assert j < |pool| ==> ParentOk(pool, j);
      if j < |pool| && j != i {
        assert NodeOk(pool, j);
        assert r[j] == pool[j];
      } else if j >= |pool| {
        assert r[j] == FreshChild(pool[i].depth + 1, i);
      }
    }
  }

  /** Nodes on a path stay, and what is new on a path is a fresh child. */
  lemma {:induction false} ExpandKeepsPaths(pool: Pool, i: nat, key: Key, d: nat)
    requires PoolOk(pool) && Expandable(pool, i) && d <= 8
    ensures PoolOk(Expand(pool, i))
    ensures NodeAt(pool, key, d).Some? ==> NodeAt(Expand(pool, i), key, d) == NodeAt(pool, key, d)
    ensures NodeAt(pool, key, d).None? && NodeAt(Expand(pool, i), key, d).Some? ==>
              var n := NodeAt(Expand(pool, i), key, d).value;
              d > 0 && |pool| <= n && Expand(pool, i)[n] == FreshChild(d, i)
  {
    ExpandOk(pool, i);
    var r := Expand(pool, i);
    if d > 0 {
      ExpandKeepsPaths(pool, i, key, d - 1);
      var p := NodeAt(r, key, d - 1);
      if p.Some? {
        assert NodeOk(r, p.value);
        if p.value < |pool| {
          assert NodeOk(pool, p.value);
        }
      }
    }
  }

  /** Expanding a node changes no key's wrapper. */
  lemma ExpandKeepsWrappers(pool: Pool, i: nat, key: Key)
    requires PoolOk(pool) && Expandable(pool, i)
    ensures PoolOk(Expand(pool, i)) && WrapperPtr(Expand(pool, i), key) == WrapperPtr(pool, key)
  {
    ExpandKeepsPaths(pool, i, key, 8);
    var r, n := Expand(pool, i), NodeAt(pool, key, 8);
    if n.Some? {
      assert NodeOk(pool, n.value) && NodeOk(r, n.value);
    }
  }

  // ---- Hanging a wrapper on a leaf ----

  function SetChild(pool: Pool, leaf: nat, w: nat): (r: Pool)
    requires leaf < |pool| && pool[leaf].Leaf?
  {
    pool[leaf := pool[leaf].(child := w)]
  }

  lemma SetChildOk(pool: Pool, leaf: nat, w: nat)
    requires PoolOk(pool) && leaf < |pool| && pool[leaf].Leaf?
    ensures PoolOk(SetChild(pool, leaf, w))
  {
    var r := SetChild(pool, leaf, w);
    forall j | 0 <= j < |r| ensures NodeOk(r, j) && ParentOk(r, j) {
      assert NodeOk(pool, j) && ParentOk(pool, j);
    }
  }

  lemma {:induction false} SetChildKeepsPaths(pool: Pool, leaf: nat, w: nat, key: Key, d: nat)
    requires PoolOk(pool) && leaf < |pool| && pool[leaf].Leaf? && d <= 8
    ensures PoolOk(SetChild(pool, leaf, w)) && NodeAt(SetChild(pool, leaf, w), key, d) == NodeAt(pool, key, d)
  {
    SetChildOk(pool, leaf, w);
    var r := SetChild(pool, leaf, w);
    if d > 0 {
      SetChildKeepsPaths(pool, leaf, w, key, d - 1);
      var p := NodeAt(pool, key, d - 1);
      if p.Some? { assert NodeOk(pool, p.value) && r[p.value] == pool[p.value]; }
    }
  }

  /** Only the key whose leaf it is sees the new wrapper. */
  lemma SetChildWrappers(pool: Pool, key: Key, w: nat, other: Key)
    requires PoolOk(pool) && NodeAt(pool, key, 8).Some?
    ensures var leaf := NodeAt(pool, key, 8).value;
            && leaf < |pool| && pool[leaf].Leaf? && PoolOk(SetChild(pool, leaf, w))
            && WrapperPtr(SetChild(pool, leaf, w), other) == if other == key then w else WrapperPtr(pool, other)
  {
    var leaf := NodeAt(pool, key, 8).value;
    assert NodeOk(pool, leaf);
    SetChildKeepsPaths(pool, leaf, w, other, 8);
    if other != key { DistinctLeaves(pool, key, other); }
  }
}
