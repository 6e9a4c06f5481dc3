/** Doubly linked chains with a head and no tail pointer: the links of a stretch of list between two neighbours. */
module Chains {
  import opened Lists

  function FirstOr(s: seq<nat>, d: nat): nat { if s == [] then d else s[0] }
  function LastOr(s: seq<nat>, d: nat): nat { if s == [] then d else s[|s| - 1] }

  function Fwd(s: seq<nat>, i: int, after: nat): nat
    requires 0 <= i < |s|
  {
    if i + 1 < |s| then s[i + 1] else after
  }

  function Bwd(s: seq<nat>, i: int, before: nat): nat
    requires 0 <= i < |s|
  {
    if i > 0 then s[i - 1] else before
  }

  /** The links of `s` spell it out, between neighbours `before` and `after` (0 for none). */
  ghost predicate Chain(s: seq<nat>, before: nat, after: nat, next: map<nat, nat>, prev: map<nat, nat>) {
    && (forall i {:trigger Fwd(s, i, after)} {:trigger At(next, s[i], 0)} :: 0 <= i < |s| ==>
       At(next, s[i], 0) == Fwd(s, i, after))
    && (forall i {:trigger Bwd(s, i, before)} {:trigger At(prev, s[i], 0)} :: 0 <= i < |s| ==>
       At(prev, s[i], 0) == Bwd(s, i, before))
  }

  lemma ChainCut(s: seq<nat>, i: nat, x: nat, y: nat, next: map<nat, nat>, prev: map<nat, nat>)
    requires i <= |s| && Chain(s, x, y, next, prev)
    ensures Chain(s[..i], x, FirstOr(s[i..], y), next, prev)
    ensures Chain(s[i..], LastOr(s[..i], x), y, next, prev)
  {
    forall k | 0 <= k < i ensures At(next, s[k], 0) == Fwd(s[..i], k, FirstOr(s[i..], y)) {
      assert Fwd(s, k, y) == At(next, s[k], 0);
    }
    forall k | 0 <= k < i ensures At(prev, s[k], 0) == Bwd(s[..i], k, x) { assert Bwd(s, k, x) == At(prev, s[k], 0); }
    var t := s[i..];
    forall k | 0 <= k < |t| ensures At(next, t[k], 0) == Fwd(t, k, y) {
      assert Fwd(s, i + k, y) == At(next, s[i + k], 0);
    }
    forall k | 0 <= k < |t| ensures At(prev, t[k], 0) == Bwd(t, k, LastOr(s[..i], x)) {
      assert Bwd(s, i + k, x) == At(prev, s[i + k], 0);
    }
  }

  lemma ChainPaste(p: seq<nat>, q: seq<nat>, x: nat, y: nat, next: map<nat, nat>, prev: map<nat, nat>)
    requires Chain(p, x, FirstOr(q, y), next, prev) && Chain(q, LastOr(p, x), y, next, prev)
    ensures Chain(p + q, x, y, next, prev)
  {
    var s := p + q;
    forall k | 0 <= k < |s| ensures At(next, s[k], 0) == Fwd(s, k, y) {
      if k < |p| {
        assert Fwd(p, k, FirstOr(q, y)) == At(next, p[k], 0);
      } else {
        assert Fwd(q, k - |p|, y) == At(next, q[k - |p|], 0);
      }
    }
    forall k | 0 <= k < |s| ensures At(prev, s[k], 0) == Bwd(s, k, x) {
      if k < |p| {
        assert Bwd(p, k, x) == At(prev, p[k], 0);
      } else {
        assert Bwd(q, k - |p|, LastOr(p, x)) == At(prev, q[k - |p|], 0);
      }
    }
  }

  /** A new neighbour in front: only the first backward link changes. */
  lemma ChainBefore(s: seq<nat>, x: nat, y: nat, next: map<nat, nat>, prev: map<nat, nat>,
                    x': nat, next': map<nat, nat>, prev': map<nat, nat>)
    requires Chain(s, x, y, next, prev)
    requires forall i :: 0 <= i < |s| ==> At(next', s[i], 0) == At(next, s[i], 0)
    requires forall i :: 0 <= i < |s| ==> At(prev', s[i], 0) == if i == 0 then x' else At(prev, s[i], 0)
    ensures Chain(s, x', y, next', prev')
  {
    forall k | 0 <= k < |s| ensures At(next', s[k], 0) == Fwd(s, k, y) { assert Fwd(s, k, y) == At(next, s[k], 0); }
    forall k | 0 <= k < |s| ensures At(prev', s[k], 0) == Bwd(s, k, x') { assert Bwd(s, k, x) == At(prev, s[k], 0); }
  }

  /** A new neighbour behind: only the last forward link changes. */
  lemma ChainAfter(s: seq<nat>, x: nat, y: nat, next: map<nat, nat>, prev: map<nat, nat>,
                   y': nat, next': map<nat, nat>, prev': map<nat, nat>)
    requires Chain(s, x, y, next, prev)
    requires forall i :: 0 <= i < |s| ==> At(next', s[i], 0) == if i == |s| - 1 then y' else At(next, s[i], 0)
    requires forall i :: 0 <= i < |s| ==> At(prev', s[i], 0) == At(prev, s[i], 0)
    ensures Chain(s, x, y', next', prev')
  {
    forall k | 0 <= k < |s| ensures At(next', s[k], 0) == Fwd(s, k, y') { assert Fwd(s, k, y) == At(next, s[k], 0); }
    forall k | 0 <= k < |s| ensures At(prev', s[k], 0) == Bwd(s, k, x) { assert Bwd(s, k, x) == At(prev, s[k], 0); }
  }

  lemma Elsewhere(a: seq<nat>, c: nat)
    requires c !in a
    ensures forall i :: 0 <= i < |a| ==> a[i] != c
  {
  }

  lemma Ends(a: seq<nat>)
    requires a != []
    ensures a[0] in a && a[|a| - 1] in a
  {
  }

  /** Prepending. */
  lemma Prepended(a: seq<nat>, c: nat, next: map<nat, nat>, prev: map<nat, nat>, next': map<nat, nat>,
                  prev': map<nat, nat>)
    requires NoDup(a) && c !in a && Chain(a, 0, 0, next, prev)
    requires next' == next[c := FirstOr(a, 0)]
    requires prev' == if a != [] then prev[c := 0][a[0] := c] else prev[c := 0]
    ensures Chain([c] + a, 0, 0, next', prev')
  {
    Elsewhere(a, c);
    ChainBefore(a, 0, 0, next, prev, c, next', prev');
    ChainPaste([c], a, 0, 0, next', prev');
  }

  /** The links of one element, and what they point at. */
  lemma Neighbours(a: seq<nat>, j: nat, next: map<nat, nat>, prev: map<nat, nat>)
    requires Chain(a, 0, 0, next, prev) && j < |a|
    ensures At(next, a[j], 0) == FirstOr(a[j + 1..], 0) && At(prev, a[j], 0) == LastOr(a[..j], 0)
  {
    assert Fwd(a, j, 0) == At(next, a[j], 0) && Bwd(a, j, 0) == At(prev, a[j], 0);
  }

  /** Unlinking element `j`. */
  lemma Extracted(a: seq<nat>, j: nat, next: map<nat, nat>, prev: map<nat, nat>, next': map<nat, nat>,
                  prev': map<nat, nat>)
    requires NoDup(a) && j < |a| && Chain(a, 0, 0, next, prev)
    requires var p, q := a[..j], a[j + 1..];
      && next' == (if p != [] then next[p[j - 1] := FirstOr(q, 0)] else next)
      && prev' == (if q != [] then prev[q[0] := LastOr(p, 0)] else prev)
    ensures Chain(a[..j] + a[j + 1..], 0, 0, next', prev')
  {
    var p, q := a[..j], a[j + 1..];
    ChainCut(a, j, 0, 0, next, prev);
    ChainCut(a, j + 1, 0, 0, next, prev);
    ChainAfter(p, 0, a[j], next, prev, FirstOr(q, 0), next', prev');
    ChainBefore(q, a[j], 0, next, prev, LastOr(p, 0), next', prev');
    ChainPaste(p, q, 0, 0, next', prev');
  }

  /** Element `k` gives way to a new element `c`. */
  lemma Replaced(a: seq<nat>, k: nat, c: nat, next: map<nat, nat>, prev: map<nat, nat>, next': map<nat, nat>,
                 prev': map<nat, nat>)
    requires NoDup(a) && 0 !in a && k < |a| && c !in a && c != 0 && Chain(a, 0, 0, next, prev)
    requires var v, n := LastOr(a[..k], 0), FirstOr(a[k + 1..], 0);
      && next' == (if v != 0 then next[c := n][v := c] else next[c := n])
      && prev' == (if n != 0 then prev[c := v][n := c] else prev[c := v])
    ensures Chain(a[..k] + [c] + a[k + 1..], 0, 0, next', prev')
  {
    var p, q := a[..k], a[k + 1..];
    var v, n := LastOr(p, 0), FirstOr(q, 0);
    Elsewhere(a, c);
    assert p != [] ==> v == a[k - 1] && a[k - 1] in a;
    assert q != [] ==> n == a[k + 1] && a[k + 1] in a;
    ChainCut(a, k, 0, 0, next, prev);
    ChainCut(a, k + 1, 0, 0, next, prev);
    ChainAfter(p, 0, a[k], next, prev, c, next', prev');
    ChainBefore(q, a[k], 0, next, prev, c, next', prev');
    assert Chain([c], v, n, next', prev');
    ChainPaste(p, [c], 0, n, next', prev');
    ChainPaste(p + [c], q, 0, 0, next', prev');
  }
}
