/** Counting nodes (lib/pmem/ARTree.cpp, getTreeSize). */
module TrieSize {
  import opened ValueIndex
  import opened TrieNodes

  /** The nodes (or only the leaves) in the subtree of node i, by recursion over children. */
  ghost function SizeFrom(pool: Pool, i: nat, leavesOnly: bool): (n: nat)
    requires PoolOk(pool) && i < |pool|
    decreases 8 - pool[i].depth, 1, 0
  {
    assert NodeOk(pool, i);
    if pool[i].Leaf? then 1
    else (if pool[i].children[0] == 0 then 0 else SizeOfFirst(pool, i, leavesOnly, 256)) + (if leavesOnly then 0 else 1)
  }

  ghost function SizeOfFirst(pool: Pool, i: nat, leavesOnly: bool, n: nat): (r: nat)
    requires PoolOk(pool) && i < |pool| && n <= 256
    requires pool[i].Node256? && |pool[i].children| == 256 && pool[i].children[0] != 0
    decreases 8 - pool[i].depth, 0, n
  {
    assert NodeOk(pool, i);
    if n == 0 then 0
    else SizeOfFirst(pool, i, leavesOnly, n - 1) + SizeFrom(pool, pool[i].children[n - 1], leavesOnly)
  }

  /** The ancestor of node i at depth d. */
  ghost function Ancestor(pool: Pool, i: nat, d: nat): (a: nat)
    requires PoolOk(pool) && i < |pool| && d <= pool[i].depth
    ensures a < |pool| && pool[a].depth == d
    decreases pool[i].depth
  {
    assert NodeOk(pool, i) && ParentOk(pool, i);
    if pool[i].depth == d then i else Ancestor(pool, pool[i].parent, d)
  }

  ghost predicate Below(pool: Pool, i: nat, j: nat)
    requires PoolOk(pool) && i < |pool| && j < |pool|
  {
    pool[j].depth <= pool[i].depth && Ancestor(pool, i, pool[j].depth) == j
  }

  lemma {:induction false} AncestorStep(pool: Pool, i: nat, d: nat)
    requires PoolOk(pool) && i < |pool| && d < pool[i].depth
    ensures Ancestor(pool, i, d + 1) > 0 && pool[Ancestor(pool, i, d + 1)].parent == Ancestor(pool, i, d)
    decreases pool[i].depth
  {
    assert NodeOk(pool, i) && ParentOk(pool, i);
    if d + 1 < pool[i].depth {
      AncestorStep(pool, pool[i].parent, d);
    }
  }

  lemma FreshChildrenSize(pool: Pool, i: nat, n: nat)
    requires PoolOk(pool) && Expandable(pool, i) && n <= 256
    ensures PoolOk(Expand(pool, i))
    ensures var r := Expand(pool, i);
            && r[i].Node256? && |r[i].children| == 256 && r[i].children[0] == |pool|
            && |pool| > 0 && SizeOfFirst(r, i, false, n) == n
  {
    ExpandOk(pool, i);
    var r := Expand(pool, i);
    if n > 0 {
      FreshChildrenSize(pool, i, n - 1);
      assert r[|pool| + n - 1] == FreshChild(pool[i].depth + 1, i);
    }
  }

  /** Expanding node i adds 256 to the size of exactly the subtrees that contain it. */
  lemma {:induction false} ExpandSize(pool: Pool, i: nat, j: nat)
    requires PoolOk(pool) && Expandable(pool, i) && j < |pool|
    ensures PoolOk(Expand(pool, i))
    ensures SizeFrom(Expand(pool, i), j, false) == SizeFrom(pool, j, false) + if Below(pool, i, j) then 256 else 0
    decreases 8 - pool[j].depth, 1, 0
  {
    ExpandOk(pool, i);
    assert NodeOk(pool, i) && NodeOk(pool, j);
    if j == i {
      FreshChildrenSize(pool, i, 256);
    } else {
      if Below(pool, i, j) { AncestorStepBack(pool, i, j); }
      if pool[j].Node256? && pool[j].children[0] != 0 {
        ExpandSizeOfFirst(pool, i, j, 256);
      }
    }
  }

  /** A proper ancestor is expanded, and the path to i leaves it through a child. */
  lemma AncestorStepBack(pool: Pool, i: nat, j: nat)
    requires PoolOk(pool) && i < |pool| && j < |pool| && i != j && Below(pool, i, j)
    ensures pool[j].depth < pool[i].depth && pool[j].Node256? && |pool[j].children| == 256
    ensures 0 < pool[j].children[0] <= Ancestor(pool, i, pool[j].depth + 1) < pool[j].children[0] + 256
  {
    assert NodeOk(pool, j) && NodeOk(pool, i);
    AncestorStep(pool, i, pool[j].depth);
    assert ParentOk(pool, Ancestor(pool, i, pool[j].depth + 1));
  }

  lemma {:induction false} ExpandSizeOfFirst(pool: Pool, i: nat, j: nat, n: nat)
    requires PoolOk(pool) && Expandable(pool, i) && j < |pool| && j != i && n <= 256
    requires pool[j].Node256? && |pool[j].children| == 256 && pool[j].children[0] != 0
    ensures PoolOk(Expand(pool, i)) && Expand(pool, i)[j] == pool[j]
    ensures var hit := pool[j].depth < pool[i].depth &&
                       pool[j].children[0] <= Ancestor(pool, i, pool[j].depth + 1) < pool[j].children[0] + n;
            SizeOfFirst(Expand(pool, i), j, false, n) == SizeOfFirst(pool, j, false, n) + if hit then 256 else 0
    ensures n == 256 ==>
              (Below(pool, i, j) <==>
               pool[j].depth < pool[i].depth &&
               pool[j].children[0] <= Ancestor(pool, i, pool[j].depth + 1) < pool[j].children[0] + 256)
    decreases 8 - pool[j].depth, 0, n
  {
    ExpandOk(pool, i);
    assert NodeOk(pool, j);
    if n > 0 {
      ExpandSizeOfFirst(pool, i, j, n - 1);
      ExpandSize(pool, i, pool[j].children[n - 1]);
    }
    if n == 256 {
      if Below(pool, i, j) { AncestorStepBack(pool, i, j); }
      if pool[j].depth < pool[i].depth {
        AncestorStep(pool, i, pool[j].depth);
        var a := Ancestor(pool, i, pool[j].depth + 1);
        if pool[j].children[0] <= a < pool[j].children[0] + 256 {
          assert pool[j].children[a - pool[j].children[0]] == a;
        }
      }
    }
  }

  /** getTreeSize from the root grows by 256 with every expansion ... */
  lemma ExpandRootSize(pool: Pool, i: nat)
    requires PoolOk(pool) && Expandable(pool, i)
    ensures PoolOk(Expand(pool, i)) && SizeFrom(Expand(pool, i), 0, false) == SizeFrom(pool, 0, false) + 256
  {
    ExpandSize(pool, i, 0);
    RootIsAncestor(pool, i);
  }

  lemma {:induction false} RootIsAncestor(pool: Pool, i: nat)
    requires PoolOk(pool) && i < |pool|
    ensures Ancestor(pool, i, 0) == 0
    decreases pool[i].depth
  {
    assert NodeOk(pool, i) && ParentOk(pool, i);
    if i > 0 { RootIsAncestor(pool, pool[i].parent); }
  }

  /** ... and a wrapper on a leaf changes no size. */
  lemma {:induction false} SetChildSize(pool: Pool, leaf: nat, w: nat, j: nat)
    requires PoolOk(pool) && leaf < |pool| && pool[leaf].Leaf? && j < |pool|
    ensures PoolOk(SetChild(pool, leaf, w)) && SizeFrom(SetChild(pool, leaf, w), j, false) == SizeFrom(pool, j, false)
    decreases 8 - pool[j].depth, 1, 0
  {
    SetChildOk(pool, leaf, w);
    assert NodeOk(pool, j);
    if pool[j].Node256? && pool[j].children[0] != 0 { SetChildSizeOfFirst(pool, leaf, w, j, 256); }
  }

  lemma {:induction false} SetChildSizeOfFirst(pool: Pool, leaf: nat, w: nat, j: nat, n: nat)
    requires PoolOk(pool) && leaf < |pool| && pool[leaf].Leaf? && j < |pool| && n <= 256
    requires pool[j].Node256? && |pool[j].children| == 256 && pool[j].children[0] != 0
    ensures PoolOk(SetChild(pool, leaf, w))
    ensures SizeOfFirst(SetChild(pool, leaf, w), j, false, n) == SizeOfFirst(pool, j, false, n)
    decreases 8 - pool[j].depth, 0, n
  {
    SetChildOk(pool, leaf, w);
    assert NodeOk(pool, j);
    if n > 0 {
      SetChildSizeOfFirst(pool, leaf, w, j, n - 1);
      SetChildSize(pool, leaf, w, pool[j].children[n - 1]);
    }
  }
}
