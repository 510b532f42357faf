/** What several components share. */
module Basics {
  datatype Option<+T> = None | Some(value: T)

  ghost predicate NoDuplicates<T>(s: seq<T>) {
    forall i, j :: 0 <= i < j < |s| ==> s[i] != s[j]
  }

  /** The index after i in a ring of n. */
  function Successor(i: nat, n: nat): (r: nat)
    requires i < n
    ensures r < n
  {
    if i + 1 == n then 0 else i + 1
  }

  lemma SuccessorIsRemainder(i: nat, n: nat)
    requires i < n
    ensures (i + 1) % n == Successor(i, n)
  {
  }
}

/** Paths of a step relation, and how they join. */
module Paths {
  /** Each step leads from one state to the next. */
  ghost predicate Path<S(!new), T(!new)>(rel: (S, T, S) -> bool, states: seq<S>, steps: seq<T>) {
    |states| == |steps| + 1 && forall i :: 0 <= i < |steps| ==> rel(states[i], steps[i], states[i + 1])
  }

  /** The steps can be taken one after the other from s, and lead to t. */
  ghost predicate Leads<S(!new), T(!new)>(rel: (S, T, S) -> bool, s: S, steps: seq<T>, t: S) {
    exists states :: Path(rel, states, steps) && states[0] == s && states[|steps|] == t
  }

  lemma OneStep<S(!new), T(!new)>(rel: (S, T, S) -> bool, s: S, step: T, t: S)
    requires rel(s, step, t)
    ensures Leads(rel, s, [step], t)
  {
    assert Path(rel, [s, t], [step]);
  }

  lemma Joined<S(!new), T(!new)>(rel: (S, T, S) -> bool, xs: seq<S>, a: seq<T>, ys: seq<S>, b: seq<T>)
    requires Path(rel, xs, a) && Path(rel, ys, b) && xs[|a|] == ys[0]
    ensures Path(rel, xs[..|a|] + ys, a + b)
  {
    var zs := xs[..|a|] + ys;
    forall i | 0 <= i < |a + b| ensures rel(zs[i], (a + b)[i], zs[i + 1]) {
      if i < |a| {
        assert zs[i] == xs[i] && zs[i + 1] == xs[i + 1];
      } else {
        assert zs[i] == ys[i - |a|] && zs[i + 1] == ys[i + 1 - |a|];
      }
    }
  }

  lemma Then<S(!new), T(!new)>(rel: (S, T, S) -> bool, s: S, a: seq<T>, t: S, b: seq<T>, u: S)
    requires Leads(rel, s, a, t) && Leads(rel, t, b, u)
    ensures Leads(rel, s, a + b, u)
  {
    var xs :| Path(rel, xs, a) && xs[0] == s && xs[|a|] == t;
    var ys :| Path(rel, ys, b) && ys[0] == t && ys[|b|] == u;
    Joined(rel, xs, a, ys, b);
  }

  /** The same, with the states on the way. */
  lemma Through<S(!new), T(!new)>(rel: (S, T, S) -> bool, s: S, a: seq<T>, t: S, b: seq<T>, u: S)
    returns (states: seq<S>)
    requires Leads(rel, s, a, t) && Leads(rel, t, b, u)
    ensures Path(rel, states, a + b) && states[0] == s && states[|a|] == t && states[|a + b|] == u
  {
    var xs :| Path(rel, xs, a) && xs[0] == s && xs[|a|] == t;
    var ys :| Path(rel, ys, b) && ys[0] == t && ys[|b|] == u;
    Joined(rel, xs, a, ys, b);
    states := xs[..|a|] + ys;
  }

  lemma Stay<S(!new), T(!new)>(rel: (S, T, S) -> bool, s: S)
    ensures Leads(rel, s, [], s)
  {
    assert Path(rel, [s], []);
  }
}
