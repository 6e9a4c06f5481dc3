/** The waiting queues as the code keeps them: links in command blocks and four sentinels side by side. */
module DVDQueue {
  import opened Lists
  import opened Chains
  import opened Rings
  import opened WaitQueues

  /** The address of sentinel `i`. */
  function Sentinel(base: nat, i: nat): nat { base + 8 * i }

  /** Apart from the sentinels. */
  predicate Block(base: nat, b: nat) {
    b != 0 && forall i :: 0 <= i < QUEUES ==> b != Sentinel(base, i)
  }

  ghost predicate Around(base: nat, qs: seq<seq<nat>>, i: nat, next: map<nat, nat>, prev: map<nat, nat>)
    requires i < |qs|
  {
    Ring(qs[i], Sentinel(base, i), next, prev) && forall b :: b in qs[i] ==> Block(base, b)
  }

  ghost predicate AllRings(base: nat, w: Waiting, next: map<nat, nat>, prev: map<nat, nat>) {
    && base > 0 && Good(w)
    && (forall i :: 0 <= i < QUEUES ==> Around(base, w.qs, i, next, prev))
    && (forall b :: b in w.stale ==> Block(base, b))
  }

  /** A block that waits nowhere and is not stale has a null link. */
  ghost predicate Unlinked(base: nat, w: Waiting, next: map<nat, nat>, prev: map<nat, nat>) {
    forall b :: Block(base, b) && !w.Queued(b) && b !in w.stale ==> At(next, b, 0) == 0 || At(prev, b, 0) == 0
  }

  /** Writing the links of queue `i` and of blocks that wait nowhere leaves the other queues alone. */
  lemma OneRing(base: nat, w: Waiting, i: nat, q: seq<nat>, stale: set<nat>,
                next: map<nat, nat>, prev: map<nat, nat>, next': map<nat, nat>, prev': map<nat, nat>)
    requires AllRings(base, w, next, prev) && i < QUEUES
    requires Good(Waiting(w.qs[i := q], stale)) && Ring(q, Sentinel(base, i), next', prev')
    requires forall b :: b in q || b in stale ==> Block(base, b)
    requires forall j, b :: 0 <= j < QUEUES && j != i && (b == Sentinel(base, j) || b in w.qs[j]) ==>
      At(next', b, 0) == At(next, b, 0) && At(prev', b, 0) == At(prev, b, 0)
    ensures AllRings(base, Waiting(w.qs[i := q], stale), next', prev')
  {
    var w' := Waiting(w.qs[i := q], stale);
    forall j | 0 <= j < QUEUES ensures Around(base, w'.qs, j, next', prev') {
      if j != i {
        assert Around(base, w.qs, j, next, prev);
        RingFrame(w.qs[j], Sentinel(base, j), next, prev, next', prev');
      }
    }
  }

  lemma NotIn(w: Waiting, b: nat, i: nat)
    requires !w.Queued(b) && i < |w.qs|
    ensures b !in w.qs[i]
  {
  }

  /** The neighbours of a waiting block: other blocks of its queue, or the sentinel. */
  lemma Neighbourhood(base: nat, w: Waiting, i: nat, j: nat, next: map<nat, nat>, prev: map<nat, nat>)
    requires AllRings(base, w, next, prev) && i < QUEUES && j < |w.qs[i]|
    ensures var s, q := w.qs[i], Sentinel(base, i);
      && At(next, s[j], 0) == Fwd(s, j, q) != 0 && At(prev, s[j], 0) == Bwd(s, j, q) != 0
      && (Fwd(s, j, q) in s || Fwd(s, j, q) == q) && (Bwd(s, j, q) in s || Bwd(s, j, q) == q)
      && NoDup(s) && q !in s
  {
    var s, q := w.qs[i], Sentinel(base, i);
    assert Around(base, w.qs, i, next, prev);
    RingAt(s, q, j, next, prev);
    forall b | b in s ensures b != q { assert Block(base, b); }
  }

  lemma PushRings(base: nat, w: Waiting, i: nat, b: nat, next: map<nat, nat>, prev: map<nat, nat>)
    requires AllRings(base, w, next, prev) && i < QUEUES && Block(base, b) && !w.Queued(b)
    ensures var q := Sentinel(base, i);
      && At(prev, q, 0) == LastOr(w.qs[i], q)
      && AllRings(base, Push(w, i, b), next[At(prev, q, 0) := b][b := q], prev[b := At(prev, q, 0)][q := b])
  {
    var s, q := w.qs[i], Sentinel(base, i);
    assert Around(base, w.qs, i, next, prev);
    NotIn(w, b, i);
    forall x | x in s ensures x != q { assert Block(base, x); }
    RingPush(s, q, b, next, prev);
    StepGood(w, PushCall(i, b));
    var next', prev' := next[LastOr(s, q) := b][b := q], prev[b := LastOr(s, q)][q := b];
    forall j, x | 0 <= j < QUEUES && j != i && (x == Sentinel(base, j) || x in w.qs[j])
      ensures At(next', x, 0) == At(next, x, 0) && At(prev', x, 0) == At(prev, x, 0)
    {
      assert Around(base, w.qs, j, next, prev);
      assert x != b by { NotIn(w, b, j); }
      assert LastOr(s, q) == q || LastOr(s, q) in s;
    }
    hide Ring, LastOr;
    OneRing(base, w, i, s + [b], w.stale - {b}, next, prev, next', prev');
  }

  /** The links after block `j` of a queue is taken out; its own links may hold anything. */
  ghost predicate Bridged(s: seq<nat>, q: nat, j: nat, next: map<nat, nat>, prev: map<nat, nat>, next': map<nat, nat>,
                          prev': map<nat, nat>)
    requires j < |s|
  {
    && (forall x :: x != s[j] ==> At(next', x, 0) == (if x == Bwd(s, j, q) then Fwd(s, j, q) else At(next, x, 0)))
    && (forall x :: x != s[j] ==> At(prev', x, 0) == (if x == Fwd(s, j, q) then Bwd(s, j, q) else At(prev, x, 0)))
  }

  lemma BridgedRing(s: seq<nat>, q: nat, j: nat, next: map<nat, nat>, prev: map<nat, nat>, next': map<nat, nat>,
                    prev': map<nat, nat>)
    requires Ring(s, q, next, prev) && NoDup(s) && q !in s && j < |s| && Bridged(s, q, j, next, prev, next', prev')
    ensures Ring(s[..j] + s[j + 1..], q, next', prev')
  {
    var r, v, x := s[..j] + s[j + 1..], Bwd(s, j, q), Fwd(s, j, q);
    RingRemove(s, q, j, next, prev);
    WithoutAt(s, j);
    WithoutMembers(s, s[j]);
    assert forall b :: b == q || b in r ==> b != s[j];
    BridgedFields(s, q, j, next, prev, next', prev');
    hide *;
    RingFrame(r, q, next[v := x], prev[x := v], next', prev');
  }

  lemma BridgedFields(s: seq<nat>, q: nat, j: nat, next: map<nat, nat>, prev: map<nat, nat>, next': map<nat, nat>,
                      prev': map<nat, nat>)
    requires j < |s| && Bridged(s, q, j, next, prev, next', prev')
    ensures var v, x := Bwd(s, j, q), Fwd(s, j, q);
      forall b :: b != s[j] ==> At(next', b, 0) == At(next[v := x], b, 0) && At(prev', b, 0) == At(prev[x := v], b, 0)
  {
  }

  lemma TwoWrites(s: seq<nat>, q: nat, j: nat, next: map<nat, nat>, prev: map<nat, nat>)
    requires j < |s|
    ensures var v, x := Bwd(s, j, q), Fwd(s, j, q); Bridged(s, q, j, next, prev, next[v := x], prev[x := v])
  {
  }

  lemma BridgedElsewhere(base: nat, w: Waiting, i: nat, j: nat, next: map<nat, nat>, prev: map<nat, nat>,
                         next': map<nat, nat>, prev': map<nat, nat>, k: nat, x: nat)
    requires AllRings(base, w, next, prev) && i < QUEUES && j < |w.qs[i]|
    requires Bridged(w.qs[i], Sentinel(base, i), j, next, prev, next', prev')
    requires k < QUEUES && k != i && (x == Sentinel(base, k) || x in w.qs[k])
    ensures At(next', x, 0) == At(next, x, 0) && At(prev', x, 0) == At(prev, x, 0)
  {
    Neighbourhood(base, w, i, j, next, prev);
    var s, q := w.qs[i], Sentinel(base, i);
    assert Around(base, w.qs, k, next, prev) && Around(base, w.qs, i, next, prev);
    assert x != q && x !in s;
    hide *;
    BridgedAway(s, q, j, next, prev, next', prev', x);
  }

  lemma BridgedAway(s: seq<nat>, q: nat, j: nat, next: map<nat, nat>, prev: map<nat, nat>,
                    next': map<nat, nat>, prev': map<nat, nat>, x: nat)
    requires j < |s| && Bridged(s, q, j, next, prev, next', prev') && x !in s && x != q
    ensures At(next', x, 0) == At(next, x, 0) && At(prev', x, 0) == At(prev, x, 0)
  {
    assert Bwd(s, j, q) == q || Bwd(s, j, q) in s;
    assert Fwd(s, j, q) == q || Fwd(s, j, q) in s;
  }

  lemma TakeGood(w: Waiting, i: nat, j: nat, stale: set<nat>)
    requires Good(w) && i < QUEUES && j < |w.qs[i]| && (stale == w.stale || stale == w.stale + {w.qs[i][j]})
    ensures Good(Waiting(w.qs[i := w.qs[i][..j] + w.qs[i][j + 1..]], stale))
    ensures forall x :: x in w.qs[i][..j] + w.qs[i][j + 1..] ==> x in w.qs[i]
  {
    WithoutAt(w.qs[i], j);
    WithoutMembers(w.qs[i], w.qs[i][j]);
    forall x | x in w.qs[i] ensures x !in w.stale { assert w.Queued(x); }
    ChangeGood(w, i, w.qs[i][..j] + w.qs[i][j + 1..], stale);
  }

  /** Both ways of taking a block out: its neighbours are linked to each other. */
  lemma TakeRings(base: nat, w: Waiting, i: nat, j: nat, stale: set<nat>, next: map<nat, nat>, prev: map<nat, nat>,
                  next': map<nat, nat>, prev': map<nat, nat>)
    requires AllRings(base, w, next, prev) && i < QUEUES && j < |w.qs[i]|
    requires Bridged(w.qs[i], Sentinel(base, i), j, next, prev, next', prev')
    requires stale == w.stale || stale == w.stale + {w.qs[i][j]}
    ensures AllRings(base, Waiting(w.qs[i := w.qs[i][..j] + w.qs[i][j + 1..]], stale), next', prev')
  {
    var s, q := w.qs[i], Sentinel(base, i);
    Neighbourhood(base, w, i, j, next, prev);
    assert Around(base, w.qs, i, next, prev);
    BridgedRing(s, q, j, next, prev, next', prev');
    TakeGood(w, i, j, stale);
    forall k, x | 0 <= k < QUEUES && k != i && (x == Sentinel(base, k) || x in w.qs[k])
      ensures At(next', x, 0) == At(next, x, 0) && At(prev', x, 0) == At(prev, x, 0)
    {
      BridgedElsewhere(base, w, i, j, next, prev, next', prev', k, x);
    }
    assert forall x :: x in s || x in stale ==> Block(base, x);
    hide Ring, Fwd, Bwd, Good, Around, Block, Sentinel, Bridged;
    OneRing(base, w, i, s[..j] + s[j + 1..], stale, next, prev, next', prev');
  }

  /** A stale block dequeued again leaves the queues as they were just when the links it writes are there already. */
  lemma SecondDequeueLinks(base: nat, w: Waiting, b: nat, next: map<nat, nat>, prev: map<nat, nat>)
    requires AllRings(base, w, next, prev) && b in w.stale
    ensures var p, x := At(prev, b, 0), At(next, b, 0);
      AllRings(base, w, next[p := x], prev[x := p]) <==>
        (OnRing(base, w, p) ==> At(next, p, 0) == x) && (OnRing(base, w, x) ==> At(prev, x, 0) == p)
  {
    var p, x := At(prev, b, 0), At(next, b, 0);
    var next', prev' := next[p := x], prev[x := p];
    if (OnRing(base, w, p) ==> At(next, p, 0) == x) && (OnRing(base, w, x) ==> At(prev, x, 0) == p) {
      forall i | 0 <= i < QUEUES ensures Around(base, w.qs, i, next', prev') {
        assert Around(base, w.qs, i, next, prev);
        forall c | c == Sentinel(base, i) || c in w.qs[i]
          ensures At(next', c, 0) == At(next, c, 0) && At(prev', c, 0) == At(prev, c, 0)
        {
          assert OnRing(base, w, c);
        }
        RingFrame(w.qs[i], Sentinel(base, i), next, prev, next', prev');
      }
    } else if OnRing(base, w, p) && At(next, p, 0) != x {
      LinksFixed(base, w, p, next, prev, next', prev');
    } else {
      LinksFixed(base, w, x, next, prev, next', prev');
    }
  }

  /** Going round queue `i`: the sentinel, the blocks in order, the sentinel. */
  function Place(base: nat, q: seq<nat>, i: nat, k: nat): nat {
    if 1 <= k <= |q| then q[k - 1] else Sentinel(base, i)
  }

  /** `x` comes right after `p` on some queue. */
  ghost predicate NextTo(base: nat, w: Waiting, p: nat, x: nat) {
    exists i: nat, k: nat :: StandsAt(base, w, i, k, p, x)
  }

  ghost predicate StandsAt(base: nat, w: Waiting, i: nat, k: nat, p: nat, x: nat) {
    i < QUEUES && i < |w.qs| && k <= |w.qs[i]| && Place(base, w.qs[i], i, k) == p && Place(base, w.qs[i], i, k + 1) == x
  }

  /** The links spell out who comes after whom. */
  lemma LinksAreNeighbours(base: nat, w: Waiting, p: nat, x: nat, next: map<nat, nat>, prev: map<nat, nat>)
    requires AllRings(base, w, next, prev)
    ensures NextTo(base, w, p, x) ==>
      At(next, p, 0) == x && At(prev, x, 0) == p && OnRing(base, w, p) && OnRing(base, w, x)
    ensures OnRing(base, w, p) && At(next, p, 0) == x ==> NextTo(base, w, p, x)
    ensures OnRing(base, w, x) && At(prev, x, 0) == p ==> NextTo(base, w, p, x)
  {
    if NextTo(base, w, p, x) {
      var i: nat, k: nat :| StandsAt(base, w, i, k, p, x);
      NeighbourLinks(base, w, i, k, next, prev);
    }
    if OnRing(base, w, p) {
      var i: nat, k: nat := PlaceOf(base, w, p);
      NeighbourLinks(base, w, i, k, next, prev);
      assert At(next, p, 0) == x ==> StandsAt(base, w, i, k, p, x);
    }
    if OnRing(base, w, x) {
      var i: nat, k: nat := PlaceOf(base, w, x);
      var j := if k == 0 then |w.qs[i]| else k - 1;
      NeighbourLinks(base, w, i, j, next, prev);
      assert At(prev, x, 0) == p ==> StandsAt(base, w, i, j, p, x);
    }
  }

  lemma PlaceOf(base: nat, w: Waiting, n: nat) returns (i: nat, k: nat)
    requires OnRing(base, w, n)
    ensures i < QUEUES && i < |w.qs| && k <= |w.qs[i]| && Place(base, w.qs[i], i, k) == n
  {
    i :| i < QUEUES && i < |w.qs| && (n == Sentinel(base, i) || n in w.qs[i]);
    if n == Sentinel(base, i) {
      k := 0;
    } else {
      var j :| 0 <= j < |w.qs[i]| && w.qs[i][j] == n;
      k := j + 1;
    }
  }

  lemma NeighbourLinks(base: nat, w: Waiting, i: nat, k: nat, next: map<nat, nat>, prev: map<nat, nat>)
    requires AllRings(base, w, next, prev) && i < QUEUES && k <= |w.qs[i]|
    ensures var p, x := Place(base, w.qs[i], i, k), Place(base, w.qs[i], i, k + 1);
      At(next, p, 0) == x && At(prev, x, 0) == p && OnRing(base, w, p) && OnRing(base, w, x)
  {
    var q, s := w.qs[i], Sentinel(base, i);
    assert Around(base, w.qs, i, next, prev);
    if k > 0 { RingAt(q, s, k - 1, next, prev); }
    if k < |q| { RingAt(q, s, k, next, prev); }
  }

  /** A stale block dequeued again leaves the queues as they were if and only if its old neighbours are still next to
      each other, or neither of them stands on a queue any more. */
  lemma SecondDequeueIff(base: nat, w: Waiting, b: nat, next: map<nat, nat>, prev: map<nat, nat>)
    requires AllRings(base, w, next, prev) && b in w.stale
    ensures var p, x := At(prev, b, 0), At(next, b, 0);
      AllRings(base, w, next[p := x], prev[x := p]) <==>
        NextTo(base, w, p, x) || (!OnRing(base, w, p) && !OnRing(base, w, x))
  {
    SecondDequeueLinks(base, w, b, next, prev);
    LinksAreNeighbours(base, w, At(prev, b, 0), At(next, b, 0), next, prev);
    hide *;
  }

  /** Blocks 101, 102 and 103 were pushed, then 102 and 101 dequeued. */
  const TWICE: Waiting := Waiting([[103], [], [], []], {101, 102})
  const TWICE_NEXT: map<nat, nat> := map[8 := 103, 103 := 8, 16 := 16, 24 := 24, 32 := 32, 101 := 103, 102 := 103]
  const TWICE_PREV: map<nat, nat> := map[8 := 103, 103 := 8, 16 := 16, 24 := 24, 32 := 32, 101 := 8, 102 := 101]

  lemma TwiceStands()
    ensures AllRings(8, TWICE, TWICE_NEXT, TWICE_PREV) && OnRing(8, TWICE, 103)
  {
    TwiceAround();
    hide Around, TWICE_NEXT, TWICE_PREV;
    forall i | 0 <= i < QUEUES ensures Around(8, TWICE.qs, i, TWICE_NEXT, TWICE_PREV) {}
    assert 103 in TWICE.qs[0];
  }

  lemma EmptyAround(base: nat, qs: seq<seq<nat>>, i: nat, next: map<nat, nat>, prev: map<nat, nat>)
    requires i < |qs| && qs[i] == []
    requires At(next, Sentinel(base, i), 0) == Sentinel(base, i) == At(prev, Sentinel(base, i), 0)
    ensures Around(base, qs, i, next, prev)
  {
  }

  lemma SingleAround(base: nat, qs: seq<seq<nat>>, i: nat, b: nat, next: map<nat, nat>, prev: map<nat, nat>)
    requires i < |qs| && qs[i] == [b] && Block(base, b)
    requires At(next, Sentinel(base, i), 0) == b == At(prev, Sentinel(base, i), 0)
    requires At(next, b, 0) == Sentinel(base, i) == At(prev, b, 0)
    ensures Around(base, qs, i, next, prev)
  {
  }

  lemma TwiceAround()
    ensures Around(8, TWICE.qs, 0, TWICE_NEXT, TWICE_PREV) && Around(8, TWICE.qs, 1, TWICE_NEXT, TWICE_PREV)
    ensures Around(8, TWICE.qs, 2, TWICE_NEXT, TWICE_PREV) && Around(8, TWICE.qs, 3, TWICE_NEXT, TWICE_PREV)
  {
    hide Around;
    SingleAround(8, TWICE.qs, 0, 103, TWICE_NEXT, TWICE_PREV);
    EmptyAround(8, TWICE.qs, 1, TWICE_NEXT, TWICE_PREV);
    EmptyAround(8, TWICE.qs, 2, TWICE_NEXT, TWICE_PREV);
    EmptyAround(8, TWICE.qs, 3, TWICE_NEXT, TWICE_PREV);
  }

  /** Dequeuing 102 once more then breaks the queue that 103 is on. */
  lemma SecondDequeueSpoils()
    ensures AllRings(8, TWICE, TWICE_NEXT, TWICE_PREV)
    ensures var p, x := At(TWICE_PREV, 102, 0), At(TWICE_NEXT, 102, 0);
      !AllRings(8, TWICE, TWICE_NEXT[p := x], TWICE_PREV[x := p])
  {
    TwiceStands();
    hide AllRings, OnRing;
    assert At(TWICE_PREV, 102, 0) == 101 && At(TWICE_NEXT, 102, 0) == 103 && At(TWICE_PREV, 103, 0) == 8;
    assert 102 in TWICE.stale;
    SecondDequeueLinks(8, TWICE, 102, TWICE_NEXT, TWICE_PREV);
  }

  /** `n` is a sentinel or a waiting block. */
  ghost predicate OnRing(base: nat, w: Waiting, n: nat) {
    exists i :: 0 <= i < QUEUES && i < |w.qs| && (n == Sentinel(base, i) || n in w.qs[i])
  }

  /** The queues fix the links of every node on them. */
  lemma LinksFixed(base: nat, w: Waiting, n: nat, next: map<nat, nat>, prev: map<nat, nat>, next': map<nat, nat>,
                   prev': map<nat, nat>)
    requires AllRings(base, w, next, prev) && OnRing(base, w, n)
    ensures AllRings(base, w, next', prev') ==> At(next', n, 0) == At(next, n, 0) && At(prev', n, 0) == At(prev, n, 0)
  {
    var i :| 0 <= i < QUEUES && i < |w.qs| && (n == Sentinel(base, i) || n in w.qs[i]);
    assert Around(base, w.qs, i, next, prev);
    assert AllRings(base, w, next', prev') ==> Around(base, w.qs, i, next', prev');
    if n in w.qs[i] {
      var j :| 0 <= j < |w.qs[i]| && w.qs[i][j] == n;
      RingAt(w.qs[i], Sentinel(base, i), j, next, prev);
      if AllRings(base, w, next', prev') { RingAt(w.qs[i], Sentinel(base, i), j, next', prev'); }
    }
  }

  /** Nodes outside `touched` have their links as before. */
  lemma StillUnlinked(base: nat, was: Waiting, now: Waiting, touched: set<nat>, next0: map<nat, nat>,
                      prev0: map<nat, nat>,
                      next: map<nat, nat>, prev: map<nat, nat>)
    requires Unlinked(base, was, next0, prev0)
    requires forall b :: b !in touched ==> At(next, b, 0) == At(next0, b, 0) && At(prev, b, 0) == At(prev0, b, 0)
    requires forall b :: Block(base, b) && !now.Queued(b) && b !in now.stale ==>
      (!was.Queued(b) && b !in was.stale && b !in touched) || At(next, b, 0) == 0
    ensures Unlinked(base, now, next, prev)
  {
  }

  lemma OnQueue(base: nat, was: Waiting, i: nat, n: nat, q: nat)
    requires i < QUEUES && i < |was.qs| && q == Sentinel(base, i) && (n in was.qs[i] || n == q)
    ensures was.Queued(n) || !Block(base, n)
  {
  }

  /** A block that waited and is not the one taken out still waits. */
  lemma QueuedAfter(was: Waiting, now: Waiting, i: nat, b: nat, r: seq<nat>)
    requires i < |was.qs| && now.qs == was.qs[i := r] && forall x :: x in was.qs[i] && x != b ==> x in r
    ensures forall x :: was.Queued(x) && x != b ==> now.Queued(x)
  {
    forall x | was.Queued(x) && x != b ensures now.Queued(x) {
      var j :| 0 <= j < |was.qs| && x in was.qs[j];
      assert x in now.qs[j];
    }
  }

  /** The first block of queue `i` taken out and its links cleared. */
  lemma PopRings(base: nat, w: Waiting, i: nat, next: map<nat, nat>, prev: map<nat, nat>)
    requires AllRings(base, w, next, prev) && Unlinked(base, w, next, prev) && i < QUEUES && w.qs[i] != []
    ensures var q := Sentinel(base, i);
      var b := At(next, q, 0);
      var after := At(next, b, 0);
      var w', next', prev' := w.(qs := w.qs[i := w.qs[i][1..]]), next[q := after][b := 0], prev[after := q][b := 0];
      b == w.qs[i][0] && AllRings(base, w', next', prev') && Unlinked(base, w', next', prev')
  {
    var s, q := w.qs[i], Sentinel(base, i);
    assert Around(base, w.qs, i, next, prev);
    Neighbourhood(base, w, i, 0, next, prev);
    var b := At(next, q, 0);
    var after := At(next, b, 0);
    var w', next', prev' := w.(qs := w.qs[i := s[1..]]), next[q := after][b := 0], prev[after := q][b := 0];
    assert s[..0] + s[1..] == s[1..];
    TakeRings(base, w, i, 0, w.stale, next, prev, next', prev');
    QueuedAfter(w, w', i, b, s[1..]);
    OnQueue(base, w, i, after, q);
    OnQueue(base, w, i, q, q);
    hide AllRings, Ring, Fwd, Bwd;
    assert !Block(base, q);
    StillUnlinked(base, w, w', {q, after, b}, next, prev, next', prev');
  }

  lemma UnhookLinked(base: nat, w: Waiting, i: nat, b: nat, next: map<nat, nat>, prev: map<nat, nat>)
    requires AllRings(base, w, next, prev) && i < QUEUES && b in w.qs[i]
    ensures var v, x, q := At(prev, b, 0), At(next, b, 0), Sentinel(base, i);
      && v != 0 && x != 0 && (v == q || v in w.qs[i]) && (x == q || x in w.qs[i]) && NoDup(w.qs[i])
      && AllRings(base, Waiting(w.qs[i := Without(w.qs[i], b)], w.stale + {b}), next[v := x], prev[x := v])
  {
    var s, q := w.qs[i], Sentinel(base, i);
    var j: nat :| j < |s| && s[j] == b;
    hide *;
    Neighbourhood(base, w, i, j, next, prev);
    WithoutAt(s, j);
    TwoWrites(s, q, j, next, prev);
    TakeRings(base, w, i, j, w.stale + {b}, next, prev, next[At(prev, b, 0) := At(next, b, 0)],
      prev[At(next, b, 0) := At(prev, b, 0)]);
  }

  /** A block taken out of the middle of queue `i`, its own links left as they were. */
  lemma UnhookRings(base: nat, w: Waiting, i: nat, b: nat, next: map<nat, nat>, prev: map<nat, nat>)
    requires AllRings(base, w, next, prev) && Unlinked(base, w, next, prev) && i < QUEUES && b in w.qs[i]
    ensures var v, x := At(prev, b, 0), At(next, b, 0);
      var w' := Waiting(w.qs[i := Without(w.qs[i], b)], w.stale + {b});
      v != 0 && x != 0 && AllRings(base, w', next[v := x], prev[x := v])
        && Unlinked(base, w', next[v := x], prev[x := v])
  {
    UnhookLinked(base, w, i, b, next, prev);
    var s, v, x := w.qs[i], At(prev, b, 0), At(next, b, 0);
    var w' := Waiting(w.qs[i := Without(s, b)], w.stale + {b});
    WithoutMembers(s, b);
    hide AllRings, Without;
    QueuedAfter(w, w', i, b, Without(s, b));
    OnQueue(base, w, i, v, Sentinel(base, i));
    OnQueue(base, w, i, x, Sentinel(base, i));
    StillUnlinked(base, w, w', {v, x}, next, prev, next[v := x], prev[x := v]);
  }

  class WaitingQueues {
    const queuesBase: nat
    var next: map<nat, nat>
    var prev: map<nat, nat>
    ghost var w: Waiting

    ghost predicate Valid()
      reads this
    {
      AllRings(queuesBase, w, next, prev) && Unlinked(queuesBase, w, next, prev)
    }

    constructor (base: nat)
      requires base > 0
      ensures Valid() && w == Waiting([[], [], [], []], {}) && queuesBase == base
    {
      queuesBase := base;
      next, prev := map[], map[];
      w := Waiting([[], [], [], []], {});
      new;
      Empty();
    }

    /** Closes each sentinel on itself. */
    method Empty()
      requires queuesBase > 0 && w.qs == [[], [], [], []] && (forall b :: b in w.stale ==> Block(queuesBase, b))
      requires Unlinked(queuesBase, w, next, prev)
      modifies `next, `prev
      ensures Valid()
    {
      for i: nat := 0 to QUEUES
        invariant forall j :: 0 <= j < i ==> var q := Sentinel(queuesBase, j);
          At(next, q, 0) == q && At(prev, q, 0) == q
        invariant forall b :: Block(queuesBase, b) ==>
          At(next, b, 0) == At(old(next), b, 0) && At(prev, b, 0) == At(old(prev), b, 0)
      {
        var q := Sentinel(queuesBase, i);
        next := next[q := q];
        prev := prev[q := q];
      }
      forall i | 0 <= i < QUEUES ensures Around(queuesBase, w.qs, i, next, prev) { }
    }

    method ClearWaitingQueue()
      requires Valid()
      modifies this
      ensures Valid() && w == Clear(old(w))
    {
      ghost var was := w;
      w := Clear(w);
      forall b | b in w.stale ensures Block(queuesBase, b) {
        if b !in was.stale {
          var i :| 0 <= i < |was.qs| && b in was.qs[i];
          assert Around(queuesBase, was.qs, i, next, prev);
        }
      }
      Empty();
    }

    method PushWaitingQueue(prio: nat, block: nat)
      requires Valid() && prio < QUEUES && Block(queuesBase, block) && !w.Queued(block)
      modifies this
      ensures Valid() && w == Push(old(w), prio, block)
    {
      PushRings(queuesBase, w, prio, block, next, prev);
      hide AllRings;
      var q := Sentinel(queuesBase, prio);
      var last := At(prev, q, 0);
      next := next[last := block];
      prev := prev[block := last];
      next := next[block := q];
      prev := prev[q := block];
      w := Push(w, prio, block);
      QueuedAfter(old(w), w, prio, block, w.qs[prio]);
      assert block in w.qs[prio];
      OnQueue(queuesBase, old(w), prio, last, q);
      StillUnlinked(queuesBase, old(w), w, {last, block, q}, old(next), old(prev), next, prev);
    }

    /** Takes the first block of queue `prio`, which is not empty, and clears its links. */
    method PopWaitingQueuePrio(prio: nat) returns (block: nat)
      requires Valid() && prio < QUEUES && w.qs[prio] != []
      modifies this
      ensures Valid() && block == old(w).qs[prio][0]
      ensures w == old(w).(qs := old(w).qs[prio := old(w).qs[prio][1..]])
    {
      PopRings(queuesBase, w, prio, next, prev);
      hide AllRings, Unlinked;
      var q := Sentinel(queuesBase, prio);
      block := At(next, q, 0);
      var after := At(next, block, 0);
      next := next[q := after];
      prev := prev[after := q];
      next := next[block := 0];
      prev := prev[block := 0];
      w := w.(qs := w.qs[prio := w.qs[prio][1..]]);
    }

    /** A queue is empty when its sentinel is its own neighbour. */
    lemma EmptyRing(i: nat)
      requires Valid() && i < QUEUES
      ensures At(next, Sentinel(queuesBase, i), 0) == Sentinel(queuesBase, i) <==> w.qs[i] == []
    {
      assert Around(queuesBase, w.qs, i, next, prev);
      if w.qs[i] != [] { assert w.qs[i][0] in w.qs[i] && Block(queuesBase, w.qs[i][0]); }
    }

    method PopWaitingQueue() returns (block: nat)
      requires Valid()
      modifies this
      ensures Valid() && (block, w) == Pop(old(w))
    {
      for i: nat := 0 to QUEUES
        invariant Valid() && w == old(w) && next == old(next) && prev == old(prev)
        invariant Busiest(w.qs, 0) == Busiest(w.qs, i)
      {
        EmptyRing(i);
        var q := Sentinel(queuesBase, i);
        if At(next, q, 0) != q {
          block := PopWaitingQueuePrio(i);
          return;
        }
      }
      block := 0;
    }

    method CheckWaitingQueue() returns (some: bool)
      requires Valid()
      ensures some <==> Flat(w.qs) != []
    {
      FlatPop(w.qs);
      for i: nat := 0 to QUEUES
        invariant Busiest(w.qs, 0) == Busiest(w.qs, i)
      {
        EmptyRing(i);
        var q := Sentinel(queuesBase, i);
        if At(next, q, 0) != q { return true; }
      }
      some := false;
    }

    method DequeueWaitingQueue(block: nat) returns (found: bool)
      requires Valid() && Block(queuesBase, block) && block !in w.stale
      modifies this
      ensures Valid() && (found, w) == Dequeue(old(w), block)
    {
      var before, after := At(prev, block, 0), At(next, block, 0);
      if w.Queued(block) {
        ghost var i: nat :| i < |w.qs| && block in w.qs[i];
        UnhookRings(queuesBase, w, i, block, next, prev);
        DequeueAt(w, block, i);
      }
      hide AllRings;
      if before == 0 || after == 0 { return false; }
      next := next[before := after];
      prev := prev[after := before];
      w := Dequeue(w, block).1;
      found := true;
    }

    method IsBlockInWaitingQueue(block: nat) returns (found: bool)
      requires Valid() && Block(queuesBase, block)
      ensures found <==> w.Queued(block)
    {
      for i: nat := 0 to QUEUES
        invariant forall j :: 0 <= j < i ==> block !in w.qs[j]
      {
        EmptyRing(i);
        var q := Sentinel(queuesBase, i);
        if At(next, q, 0) != q {
          found := IsBlockInQueue(i, block);
          if found { return; }
        }
      }
      found := false;
    }

    method IsBlockInQueue(i: nat, block: nat) returns (found: bool)
      requires Valid() && i < QUEUES
      ensures found <==> block in w.qs[i]
    {
      ghost var s, k := w.qs[i], 0;
      var q := Sentinel(queuesBase, i);
      assert Around(queuesBase, w.qs, i, next, prev);
      forall b | b in s ensures b != q { assert Block(queuesBase, b); }
      Elsewhere(s, q);
      var n := At(next, q, 0);
      while n != q
        invariant 0 <= k <= |s| && n == (if k < |s| then s[k] else q) && block !in s[..k]
        decreases |s| - k
      {
        assert k < |s|;
        if n == block { return true; }
        RingAt(s, q, k, next, prev);
        n := At(next, n, 0);
        k := k + 1;
      }
      assert s[..k] == s;
      found := false;
    }
  }
}
