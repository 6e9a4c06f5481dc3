/** Intrusive doubly linked queues kept in RAM fields. Address 0 is the null link.
    The primitives rewrite links in place; the ghost `q` is the sequence each queue holds. */
module Links {
  import opened Lists

  function After(s: seq<nat>, i: int): nat
    requires 0 <= i < |s|
  {
    if i + 1 < |s| then s[i + 1] else 0
  }

  function Before(s: seq<nat>, i: int): nat
    requires 0 <= i < |s|
  {
    if i > 0 then s[i - 1] else 0
  }

  /** The links from `h` to `t` spell out `s`, forwards and backwards. */
  ghost predicate Linked(s: seq<nat>, h: nat, t: nat, next: map<nat, nat>, prev: map<nat, nat>) {
    && h == (if s == [] then 0 else s[0])
    && t == (if s == [] then 0 else s[|s| - 1])
    && (forall i {:trigger After(s, i)} {:trigger At(next, s[i], 0)} :: 0 <= i < |s| ==>
       At(next, s[i], 0) == After(s, i))
    && (forall i {:trigger Before(s, i)} {:trigger At(prev, s[i], 0)} :: 0 <= i < |s| ==>
       At(prev, s[i], 0) == Before(s, i))
  }

  lemma LinkedFrame(s: seq<nat>, h: nat, t: nat, next: map<nat, nat>, prev: map<nat, nat>,
                    next': map<nat, nat>, prev': map<nat, nat>)
    requires Linked(s, h, t, next, prev)
    requires forall n :: n in s ==> At(next', n, 0) == At(next, n, 0) && At(prev', n, 0) == At(prev, n, 0)
    ensures Linked(s, h, t, next', prev')
  {
    assert forall i :: 0 <= i < |s| ==> s[i] in s;
  }

  /** Every queue is linked and no node is in two places. */
  ghost predicate AllLinked<Q(!new)>(q: map<Q, seq<nat>>, h: map<Q, nat>, t: map<Q, nat>,
                                          next: map<nat, nat>, prev: map<nat, nat>) {
    && (forall k :: Linked(At(q, k, []), At(h, k, 0), At(t, k, 0), next, prev))
    && (forall k :: NoDup(At(q, k, [])))
    && (forall k :: 0 !in At(q, k, []))
    && (forall j, k, n :: n in At(q, j, []) && n in At(q, k, []) ==> j == k)
  }

  /** Rewriting the links of queue `k`, and of a node outside every other queue, leaves the rest linked. */
  lemma Relink<Q(!new)>(k: Q, n: nat, r: seq<nat>, q: map<Q, seq<nat>>,
                        h: map<Q, nat>, t: map<Q, nat>, next: map<nat, nat>, prev: map<nat, nat>,
                        h': map<Q, nat>, t': map<Q, nat>, next': map<nat, nat>, prev': map<nat, nat>)
    requires AllLinked(q, h, t, next, prev)
    requires forall j :: j != k ==> n !in At(q, j, [])
    requires forall j :: j != k ==> At(h', j, 0) == At(h, j, 0) && At(t', j, 0) == At(t, j, 0)
    requires forall m :: m != 0 && m != n && m !in At(q, k, []) ==>
      At(next', m, 0) == At(next, m, 0) && At(prev', m, 0) == At(prev, m, 0)
    requires Linked(r, At(h', k, 0), At(t', k, 0), next', prev') && NoDup(r) && 0 !in r
    requires forall m :: m in r ==> m in At(q, k, []) || m == n
    ensures AllLinked(q[k := r], h', t', next', prev')
  {
    forall j | j != k ensures Linked(At(q[k := r], j, []), At(h', j, 0), At(t', j, 0), next', prev') {
      LinkedFrame(At(q, j, []), At(h, j, 0), At(t, j, 0), next, prev, next', prev');
    }
  }

  lemma LinkedTail(s: seq<nat>, h: nat, t: nat, next: map<nat, nat>, prev: map<nat, nat>, n: nat,
                   next': map<nat, nat>, prev': map<nat, nat>)
    requires Linked(s, h, t, next, prev) && NoDup(s) && 0 !in s && n !in s && n != 0
    requires next' == (if t == 0 then next else next[t := n])[n := 0]
    requires prev' == prev[n := t]
    ensures t == 0 || t in s
    ensures Linked(s + [n], if t == 0 then n else h, n, next', prev')
    ensures NoDup(s + [n]) && 0 !in s + [n]
  {
    if s != [] { assert s[|s| - 1] in s; }
    forall i | 0 <= i < |s| + 1
      ensures At(next', (s + [n])[i], 0) == After(s + [n], i)
      ensures At(prev', (s + [n])[i], 0) == Before(s + [n], i)
    {
      if i < |s| { assert s[i] in s && At(next, s[i], 0) == After(s, i) && At(prev, s[i], 0) == Before(s, i); }
    }
  }

  lemma LinkedInsert(s: seq<nat>, h: nat, t: nat, next: map<nat, nat>, prev: map<nat, nat>, n: nat, i: nat,
                     r: seq<nat>, next': map<nat, nat>, prev': map<nat, nat>)
    requires Linked(s, h, t, next, prev) && NoDup(s) && 0 !in s && n !in s && n != 0 && i < |s|
    requires next' == (if Before(s, i) == 0 then next[n := s[i]] else next[n := s[i]][Before(s, i) := n])
    requires prev' == prev[s[i] := n][n := Before(s, i)]
    requires |r| == |s| + 1 && r[i] == n
    requires forall m :: 0 <= m < i ==> r[m] == s[m]
    requires forall m :: i < m < |r| ==> r[m] == s[m - 1]
    ensures Linked(r, if Before(s, i) == 0 then n else h, t, next', prev')
  {
    forall m | 0 <= m < |r| ensures At(next', r[m], 0) == After(r, m) {
      if m < i {
        assert At(next, s[m], 0) == After(s, m);
        if m == i - 1 { assert Before(s, i) == s[m]; }
      } else if m > i {
        assert At(next, s[m - 1], 0) == After(s, m - 1);
      }
    }
    forall m | 0 <= m < |r| ensures At(prev', r[m], 0) == Before(r, m) {
      if m < i {
        assert At(prev, s[m], 0) == Before(s, m);
      } else if m > i {
        assert At(prev, s[m - 1], 0) == Before(s, m - 1);
      }
    }
  }

  lemma LinkedRemove(s: seq<nat>, h: nat, t: nat, next: map<nat, nat>, prev: map<nat, nat>, i: nat,
                     r: seq<nat>, next': map<nat, nat>, prev': map<nat, nat>)
    requires Linked(s, h, t, next, prev) && NoDup(s) && 0 !in s && i < |s|
    requires next' == (if Before(s, i) == 0 then next else next[Before(s, i) := After(s, i)])
    requires prev' == (if After(s, i) == 0 then prev else prev[After(s, i) := Before(s, i)])
    requires |r| == |s| - 1
    requires forall m :: 0 <= m < i ==> r[m] == s[m]
    requires forall m :: i <= m < |r| ==> r[m] == s[m + 1]
    ensures var h', t' := if Before(s, i) == 0 then After(s, i) else h, if After(s, i) == 0 then Before(s, i) else t;
      Linked(r, h', t', next', prev')
  {
    forall m | 0 <= m < |r| ensures At(next', r[m], 0) == After(r, m) {
      if m < i {
        assert At(next, s[m], 0) == After(s, m);
        if m == i - 1 { assert Before(s, i) == s[m]; }
      } else {
        assert At(next, s[m + 1], 0) == After(s, m + 1);
      }
    }
    forall m | 0 <= m < |r| ensures At(prev', r[m], 0) == Before(r, m) {
      if m < i {
        assert At(prev, s[m], 0) == Before(s, m);
      } else {
        assert At(prev, s[m + 1], 0) == Before(s, m + 1);
        if m == i { assert After(s, i) == s[m + 1]; }
      }
    }
  }

  lemma Neighbours(s: seq<nat>, h: nat, t: nat, next: map<nat, nat>, prev: map<nat, nat>, i: nat)
    requires Linked(s, h, t, next, prev) && 0 !in s && i < |s|
    ensures At(next, s[i], 0) == After(s, i) && (After(s, i) == 0 || After(s, i) in s)
    ensures At(prev, s[i], 0) == Before(s, i) && (Before(s, i) == 0 || Before(s, i) in s)
  {
  }

  lemma RemoveKeeps<Q(!new)>(k: Q, n: nat, q: map<Q, seq<nat>>,
                             h: map<Q, nat>, t: map<Q, nat>, next: map<nat, nat>, prev: map<nat, nat>,
                             h': map<Q, nat>, t': map<Q, nat>, next': map<nat, nat>, prev': map<nat, nat>)
    requires AllLinked(q, h, t, next, prev) && n in At(q, k, [])
    requires var x, p := At(next, n, 0), At(prev, n, 0);
             && h' == (if p == 0 then h[k := x] else h)
             && t' == (if x == 0 then t[k := p] else t)
             && next' == (if p == 0 then next else next[p := x])
             && prev' == (if x == 0 then prev else prev[x := p])
    ensures AllLinked(q[k := Without(At(q, k, []), n)], h', t', next', prev')
  {
    var s := At(q, k, []);
    var i :| 0 <= i < |s| && s[i] == n;
    var r := Without(s, n);
    assert Linked(s, At(h, k, 0), At(t, k, 0), next, prev);
    Neighbours(s, At(h, k, 0), At(t, k, 0), next, prev, i);
    assert Linked(r, At(h', k, 0), At(t', k, 0), next', prev') by {
      WithoutAt(s, i);
      LinkedRemove(s, At(h, k, 0), At(t, k, 0), next, prev, i, r, next', prev');
    }
    WithoutMembers(s, n);
    hide Linked, Without;
    Relink(k, n, r, q, h, t, next, prev, h', t', next', prev');
  }

  lemma InsertKeeps<Q(!new)>(k: Q, n: nat, i: nat, q: map<Q, seq<nat>>,
                             h: map<Q, nat>, t: map<Q, nat>, next: map<nat, nat>, prev: map<nat, nat>,
                             h': map<Q, nat>, next': map<nat, nat>, prev': map<nat, nat>)
    requires AllLinked(q, h, t, next, prev) && Free(q, n) && n != 0 && i < |At(q, k, [])|
    requires var x := At(q, k, [])[i];
             var p := At(prev, x, 0);
             && h' == (if p == 0 then h[k := n] else h)
             && next' == (if p == 0 then next[n := x] else next[n := x][p := n])
             && prev' == prev[x := n][n := p]
    ensures AllLinked(q[k := At(q, k, [])[..i] + [n] + At(q, k, [])[i..]], h', t, next', prev')
  {
    var s := At(q, k, []);
    var r := s[..i] + [n] + s[i..];
    assert Linked(s, At(h, k, 0), At(t, k, 0), next, prev);
    Neighbours(s, At(h, k, 0), At(t, k, 0), next, prev, i);
    assert Linked(r, At(h', k, 0), At(t, k, 0), next', prev') by {
      LinkedInsert(s, At(h, k, 0), At(t, k, 0), next, prev, n, i, r, next', prev');
    }
    SpliceMembers(s, i, n);
    hide Linked;
    Relink(k, n, r, q, h, t, next, prev, h', t, next', prev');
  }

  /** `n` stands in no queue. */
  ghost predicate Free<Q(!new)>(q: map<Q, seq<nat>>, n: nat) {
    forall k :: n !in At(q, k, [])
  }

  /** A node taken out of its queue stands in none. */
  lemma Removed<Q(!new)>(q: map<Q, seq<nat>>, k: Q, n: nat)
    requires (forall j :: NoDup(At(q, j, []))) && n in At(q, k, [])
    requires forall i, j, m :: m in At(q, i, []) && m in At(q, j, []) ==> i == j
    ensures Free(q[k := Without(At(q, k, []), n)], n)
  {
    var q' := q[k := Without(At(q, k, []), n)];
    WithoutMembers(At(q, k, []), n);
    forall j ensures n !in At(q', j, []) {
      if j != k { assert At(q', j, []) == At(q, j, []); }
    }
  }

  class Queues<Q(==, !new)> {
    var head: map<Q, nat>
    var tail: map<Q, nat>
    var next: map<nat, nat>
    var prev: map<nat, nat>
    ghost var q: map<Q, seq<nat>>

    ghost predicate Valid()
      reads this
    {
      AllLinked(q, head, tail, next, prev)
    }

    constructor ()
      ensures Valid() && q == map[]
    {
      head, tail, next, prev, q := map[], map[], map[], map[], map[];
    }

    /** Makes `k` an empty queue; whatever stood in it is forgotten. */
    method Clear(k: Q)
      requires Valid()
      modifies this
      ensures Valid() && q == old(q)[k := []]
    {
      head := head[k := 0];
      tail := tail[k := 0];
      q := q[k := []];
      forall j ensures Linked(At(q, j, []), At(head, j, 0), At(tail, j, 0), next, prev) {
        assert Linked(At(old(q), j, []), At(old(head), j, 0), At(old(tail), j, 0), next, prev);
      }
    }

    /** Zeroes the links of a node outside every queue. */
    method Unlink(n: nat)
      requires Valid() && Free(q, n)
      modifies this
      ensures Valid() && q == old(q)
    {
      next := next[n := 0];
      prev := prev[n := 0];
      forall j ensures Linked(At(q, j, []), At(head, j, 0), At(tail, j, 0), next, prev) {
        LinkedFrame(At(q, j, []), At(head, j, 0), At(tail, j, 0), old(next), old(prev), next, prev);
      }
    }

    method Head(k: Q) returns (n: nat)
      requires Valid()
      ensures n == if At(q, k, []) == [] then 0 else At(q, k, [])[0]
      ensures n == 0 <==> At(q, k, []) == []
    {
      assert Linked(At(q, k, []), At(head, k, 0), At(tail, k, 0), next, prev);
      assert 0 !in At(q, k, []);
      n := At(head, k, 0);
    }

    method AddTail(k: Q, n: nat)
      requires Valid() && n != 0
      requires Free(q, n)
      modifies this
      ensures Valid() && q == old(q)[k := At(old(q), k, []) + [n]]
    {
      ghost var h, t, s := At(head, k, 0), At(tail, k, 0), At(q, k, []);
      assert Linked(s, h, t, next, prev);
      var p := At(tail, k, 0);
      if p == 0 {
        head := head[k := n];
      } else {
        next := next[p := n];
      }
      prev := prev[n := p];
      next := next[n := 0];
      tail := tail[k := n];
      LinkedTail(s, h, t, old(next), old(prev), n, next, prev);
      Relink(k, n, s + [n], q, old(head), old(tail), old(next), old(prev), head, tail, next, prev);
      q := q[k := s + [n]];
    }

    /** The first element of queue `k` whose key exceeds `bound`, 0 for none. */
    method FirstAbove(k: Q, key: map<nat, int>, bound: int) returns (x: nat)
      requires Valid()
      ensures var s := At(q, k, []); var i := InsertPos(s, key, bound); x == (if i < |s| then s[i] else 0) && 0 !in s
    {
      ghost var s := At(q, k, []);
      assert Linked(s, At(head, k, 0), At(tail, k, 0), next, prev) && 0 !in s;
      hide AllLinked;
      x := At(head, k, 0);
      ghost var i := 0;
      while x != 0 && At(key, x, 0) <= bound
        invariant 0 <= i <= |s|
        invariant x == if i < |s| then s[i] else 0
        invariant forall j :: 0 <= j < i ==> At(key, s[j], 0) <= bound
        decreases |s| - i
      {
        assert i < |s| && At(next, s[i], 0) == After(s, i);
        x := At(next, x, 0);
        i := i + 1;
      }
      InsertPosUnique(s, key, bound, i);
    }

    /** Puts `n` in front of the first element with a greater key (at the tail when none is greater). */
    method AddPrio(k: Q, n: nat, key: map<nat, int>)
      requires Valid() && n != 0
      requires Free(q, n)
      modifies this
      ensures Valid() && q == old(q)[k := Insert(At(old(q), k, []), n, key)]
    {
      hide AllLinked;
      ghost var s := At(q, k, []);
      var x := FirstAbove(k, key, At(key, n, 0));
      ghost var i := InsertPos(s, key, At(key, n, 0));
      assert i < |s| ==> s[i] in s;
      if x == 0 {
        AddTail(k, n);
        assert s + [n] == s[..i] + [n] + s[i..];
      } else {
        InsertBefore(k, n, x, i);
      }
    }

    method InsertBefore(k: Q, n: nat, x: nat, ghost i: nat)
      requires Valid() && n != 0
      requires Free(q, n)
      requires i < |At(q, k, [])| && At(q, k, [])[i] == x
      modifies this
      ensures Valid() && q == old(q)[k := At(old(q), k, [])[..i] + [n] + At(old(q), k, [])[i..]]
    {
      hide AllLinked;
      next := next[n := x];
      var p := At(prev, x, 0);
      prev := prev[x := n];
      prev := prev[n := p];
      if p == 0 {
        head := head[k := n];
      } else {
        next := next[p := n];
      }
      InsertKeeps(k, n, i, q, old(head), tail, old(next), old(prev), head, next, prev);
      q := q[k := At(q, k, [])[..i] + [n] + At(q, k, [])[i..]];
    }

    method Remove(k: Q, n: nat)
      requires Valid() && n in At(q, k, [])
      modifies this
      ensures Valid() && q == old(q)[k := Without(At(old(q), k, []), n)] && Free(q, n)
    {
      var x := At(next, n, 0);
      var p := At(prev, n, 0);
      if x == 0 {
        tail := tail[k := p];
      } else {
        prev := prev[x := p];
      }
      if p == 0 {
        head := head[k := x];
      } else {
        next := next[p := x];
      }
      RemoveKeeps(k, n, q, old(head), old(tail), old(next), old(prev), head, tail, next, prev);
      Removed(q, k, n);
      q := q[k := Without(At(q, k, []), n)];
    }

    method RemoveHead(k: Q) returns (n: nat)
      requires Valid() && At(q, k, []) != []
      modifies this
      ensures n == At(old(q), k, [])[0]
      ensures Valid() && q == old(q)[k := At(old(q), k, [])[1..]] && Free(q, n)
    {
      assert Linked(At(q, k, []), At(head, k, 0), At(tail, k, 0), next, prev);
      assert 0 !in At(q, k, []);
      n := At(head, k, 0);
      var x := At(next, n, 0);
      assert At(prev, n, 0) == Before(At(q, k, []), 0);
      if x == 0 {
        tail := tail[k := 0];
      } else {
        prev := prev[x := 0];
      }
      head := head[k := x];
      RemoveKeeps(k, n, q, old(head), old(tail), old(next), old(prev), head, tail, next, prev);
      Removed(q, k, n);
      q := q[k := At(q, k, [])[1..]];
    }
  }
}
