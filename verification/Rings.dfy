/** Circular doubly linked lists around a sentinel node. */
module Rings {
  import opened Lists
  import opened Chains

  /** The links around sentinel `q` spell out `s`, both ways round. */
  ghost predicate Ring(s: seq<nat>, q: nat, next: map<nat, nat>, prev: map<nat, nat>) {
    At(next, q, 0) == FirstOr(s, q) && At(prev, q, 0) == LastOr(s, q) && Chain(s, q, q, next, prev)
  }

  lemma RingFrame(s: seq<nat>, q: nat, next: map<nat, nat>, prev: map<nat, nat>, next': map<nat, nat>,
                  prev': map<nat, nat>)
    requires Ring(s, q, next, prev)
    requires forall b :: b == q || b in s ==> At(next', b, 0) == At(next, b, 0) && At(prev', b, 0) == At(prev, b, 0)
    ensures Ring(s, q, next', prev')
  {
    assert forall i :: 0 <= i < |s| ==> s[i] in s;
    ChainBefore(s, q, q, next, prev, q, next', prev');
  }

  /** Linking a block in before the sentinel. */
  lemma RingPush(s: seq<nat>, q: nat, b: nat, next: map<nat, nat>, prev: map<nat, nat>)
    requires Ring(s, q, next, prev) && NoDup(s) && q !in s && b !in s && b != q
    ensures Ring(s + [b], q, next[LastOr(s, q) := b][b := q], prev[b := LastOr(s, q)][q := b])
  {
    var next', prev' := next[LastOr(s, q) := b][b := q], prev[b := LastOr(s, q)][q := b];
    Elsewhere(s, b);
    Elsewhere(s, q);
    ChainAfter(s, q, q, next, prev, b, next', prev');
    assert Chain([b], LastOr(s, q), q, next', prev');
    ChainPaste(s, [b], q, q, next', prev');
  }

  /** What the links of the block in place `j` name. */
  lemma RingAt(s: seq<nat>, q: nat, j: nat, next: map<nat, nat>, prev: map<nat, nat>)
    requires Ring(s, q, next, prev) && j < |s|
    ensures At(next, s[j], 0) == Fwd(s, j, q) && At(prev, s[j], 0) == Bwd(s, j, q)
  {
  }

  /** The stretch in front of place `j`, with its last link moved on. */
  lemma FrontKept(s: seq<nat>, q: nat, j: nat, x: nat, next: map<nat, nat>, prev: map<nat, nat>, prev': map<nat, nat>)
    requires Chain(s, q, q, next, prev) && NoDup(s) && q !in s && j < |s|
    requires forall i :: 0 <= i < j ==> At(prev', s[i], 0) == At(prev, s[i], 0)
    ensures Chain(s[..j], q, x, next[LastOr(s[..j], q) := x], prev')
  {
    var p, next' := s[..j], next[LastOr(s[..j], q) := x];
    ChainCut(s, j, q, q, next, prev);
    forall i | 0 <= i < |p| ensures At(next', p[i], 0) == if i == |p| - 1 then x else At(next, p[i], 0) {
      assert p[i] == s[i];
    }
    ChainAfter(p, q, FirstOr(s[j..], q), next, prev, x, next', prev');
  }

  /** The stretch behind it, with its first link moved back. */
  lemma BackKept(s: seq<nat>, q: nat, j: nat, v: nat, next: map<nat, nat>, prev: map<nat, nat>, next': map<nat, nat>)
    requires Chain(s, q, q, next, prev) && NoDup(s) && q !in s && j < |s|
    requires forall i :: j < i < |s| ==> At(next', s[i], 0) == At(next, s[i], 0)
    ensures Chain(s[j + 1..], v, q, next', prev[FirstOr(s[j + 1..], q) := v])
  {
    var t, prev' := s[j + 1..], prev[FirstOr(s[j + 1..], q) := v];
    ChainCut(s, j + 1, q, q, next, prev);
    forall i | 0 <= i < |t| ensures At(prev', t[i], 0) == if i == 0 then v else At(prev, t[i], 0) {
      assert t[i] == s[j + 1 + i];
    }
    forall i | 0 <= i < |t| ensures At(next', t[i], 0) == At(next, t[i], 0) { assert t[i] == s[j + 1 + i]; }
    ChainBefore(t, LastOr(s[..j + 1], q), q, next, prev, v, next', prev');
  }

  /** Unlinking the block in place `j`. */
  lemma RingRemove(s: seq<nat>, q: nat, j: nat, next: map<nat, nat>, prev: map<nat, nat>)
    requires Ring(s, q, next, prev) && NoDup(s) && q !in s && j < |s|
    ensures Ring(s[..j] + s[j + 1..], q, next[Bwd(s, j, q) := Fwd(s, j, q)], prev[Fwd(s, j, q) := Bwd(s, j, q)])
  {
    var p, t, v, x := s[..j], s[j + 1..], Bwd(s, j, q), Fwd(s, j, q);
    Elsewhere(s, q);
    assert FirstOr(t, q) == x && LastOr(p, q) == v;
    hide Chain;
    FrontKept(s, q, j, x, next, prev, prev[x := v]);
    BackKept(s, q, j, v, next, prev, next[v := x]);
    ChainPaste(p, t, q, q, next[v := x], prev[x := v]);
  }
}
