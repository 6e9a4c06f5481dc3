/** The four queues of waiting disc commands, by what each call does to them. */
module WaitQueues {
  import opened Lists

  const QUEUES: nat := 4

  /** `stale` holds the blocks taken out of the middle of a queue: their links still point into it. */
  datatype Waiting = Waiting(qs: seq<seq<nat>>, stale: set<nat>)
  {
    ghost predicate Queued(b: nat) { exists i :: 0 <= i < |qs| && b in qs[i] }
  }

  /** No block stands in two places, and only other blocks have stale links. */
  ghost predicate Good(w: Waiting) {
    && |w.qs| == QUEUES
    && (forall i :: 0 <= i < |w.qs| ==> NoDup(w.qs[i]) && 0 !in w.qs[i])
    && (forall i, j, b :: 0 <= i < |w.qs| && 0 <= j < |w.qs| && b in w.qs[i] && b in w.qs[j] ==> i == j)
    && (forall b :: b in w.stale ==> !w.Queued(b))
  }

  function Clear(w: Waiting): Waiting {
    Waiting([[], [], [], []], w.stale + (set i, b | 0 <= i < |w.qs| && b in w.qs[i] :: b))
  }

  function Push(w: Waiting, prio: nat, b: nat): Waiting
    requires prio < |w.qs|
  {
    Waiting(w.qs[prio := w.qs[prio] + [b]], w.stale - {b})
  }

  /** The first queue, from `i` on, that is not empty. */
  function Busiest(qs: seq<seq<nat>>, i: nat): (r: nat)
    requires i <= |qs|
    ensures i <= r <= |qs| && (r < |qs| ==> qs[r] != []) && forall j :: i <= j < r ==> qs[j] == []
    decreases |qs| - i
  {
    if i == |qs| || qs[i] != [] then i else Busiest(qs, i + 1)
  }

  function Pop(w: Waiting): (nat, Waiting) {
    var i := Busiest(w.qs, 0);
    if i == |w.qs| then (0, w) else (w.qs[i][0], w.(qs := w.qs[i := w.qs[i][1..]]))
  }

  /** Takes a block out of whichever queue it is in; says whether it was in one. */
  ghost function Dequeue(w: Waiting, b: nat): (bool, Waiting) {
    if !w.Queued(b) then (false, w) else
    var i :| 0 <= i < |w.qs| && b in w.qs[i];
    (true, Waiting(w.qs[i := Without(w.qs[i], b)], w.stale + {b}))
  }

  lemma DequeueAt(w: Waiting, b: nat, i: nat)
    requires Good(w) && i < |w.qs| && b in w.qs[i]
    ensures Dequeue(w, b) == (true, Waiting(w.qs[i := Without(w.qs[i], b)], w.stale + {b}))
  {
  }

  // ----- what the calls mean

  function Total(qs: seq<seq<nat>>): nat {
    if qs == [] then 0 else |qs[0]| + Total(qs[1..])
  }

  /** All the waiting blocks, most urgent queue first, each queue in order. */
  function Flat(qs: seq<seq<nat>>): seq<nat> {
    if qs == [] then [] else qs[0] + Flat(qs[1..])
  }

  lemma FlatHead(qs: seq<seq<nat>>)
    requires qs != [] && qs[0] != []
    ensures Flat(qs) == [qs[0][0]] + Flat(qs[0 := qs[0][1..]])
  {
    var q, t := qs[0], qs[1..];
    assert qs[0 := q[1..]][1..] == t;
    assert q + Flat(t) == [q[0]] + (q[1..] + Flat(t));
  }

  lemma FlatSkip(qs: seq<seq<nat>>, i: nat, q: seq<nat>)
    requires qs != [] && qs[0] == []
    ensures Flat(qs) == Flat(qs[1..]) && Busiest(qs, 0) == 1 + Busiest(qs[1..], 0)
    ensures 1 <= i < |qs| ==> Flat(qs[i := q]) == Flat(qs[1..][i - 1 := q])
  {
    BusiestTail(qs, 1);
    if 1 <= i < |qs| { assert qs[i := q][1..] == qs[1..][i - 1 := q]; }
  }

  lemma {:induction false} FlatPop(qs: seq<seq<nat>>)
    ensures var i := Busiest(qs, 0);
      && (Flat(qs) == [] <==> i == |qs|)
      && (i < |qs| ==> Flat(qs) == [qs[i][0]] + Flat(qs[i := qs[i][1..]]))
    decreases |qs|
  {
    if qs != [] {
      if qs[0] != [] {
        FlatHead(qs);
      } else {
        var i := Busiest(qs, 0);
        FlatSkip(qs, i, if i < |qs| then qs[i][1..] else []);
        FlatPop(qs[1..]);
        hide Flat, Busiest;
      }
    }
  }

  lemma {:induction false} BusiestTail(qs: seq<seq<nat>>, i: nat)
    requires 1 <= i <= |qs|
    ensures Busiest(qs, i) == 1 + Busiest(qs[1..], i - 1)
    decreases |qs| - i
  {
    if i < |qs| && qs[i] == [] { BusiestTail(qs, i + 1); }
  }

  /** Popping returns nothing just when nothing waits; else the longest waiting block of the most urgent queue. */
  lemma PopTakesFirst(w: Waiting)
    requires Good(w)
    ensures var (b, w') := Pop(w);
      && (b == 0 <==> Flat(w.qs) == []) && (b == 0 ==> w' == w)
      && (b != 0 ==> Flat(w.qs) == [b] + Flat(w'.qs) && w'.stale == w.stale)
  {
    FlatPop(w.qs);
    var i := Busiest(w.qs, 0);
    if i < |w.qs| { assert w.qs[i][0] in w.qs[i]; }
  }

  function Pops(w: Waiting, n: nat): (r: seq<nat>)
    ensures |r| == n
    decreases n
  {
    if n == 0 then [] else [Pop(w).0] + Pops(Pop(w).1, n - 1)
  }

  /** Popping until nothing is left serves every waiting block once: by queue, and within a queue in order of
      arrival. */
  lemma {:induction false} DrainOrder(w: Waiting, n: nat)
    requires Good(w) && n <= |Flat(w.qs)|
    ensures Pops(w, n) == Flat(w.qs)[..n]
    decreases n
  {
    if n > 0 {
      PopTakesFirst(w);
      PopGood(w);
      DrainOrder(Pop(w).1, n - 1);
    }
  }

  // ----- for the caller

  lemma {:induction false} FlatChange(qs: seq<seq<nat>>, i: nat, b: nat)
    requires i < |qs|
    ensures Total(qs[..i + 1]) <= |Flat(qs)|
    ensures var n := Total(qs[..i + 1]); Flat(qs[i := qs[i] + [b]]) == Flat(qs)[..n] + [b] + Flat(qs)[n..]
  {
    var q, t := qs[0], qs[1..];
    if i == 0 {
      assert qs[..1] == [q] && Total([q]) == |q| + Total([]);
      assert qs[0 := q + [b]][1..] == t;
      assert Flat(qs)[..|q|] == q && Flat(qs)[|q|..] == Flat(t);
      assert q + [b] + Flat(t) == (q + [b]) + Flat(t);
    } else {
      FlatChange(t, i - 1, b);
      var n := Total(t[..i]);
      assert qs[..i + 1] == [q] + t[..i];
      assert qs[i := qs[i] + [b]][1..] == t[i - 1 := t[i - 1] + [b]];
      assert Flat(qs)[..|q| + n] == q + Flat(t)[..n] && Flat(qs)[|q| + n..] == Flat(t)[n..];
    }
  }

  /** A block that is pushed is served behind all that wait in its own queue and in those before it, and ahead of all
      the others; nobody else's turn or queue changes. */
  lemma PushServed(w: Waiting, prio: nat, b: nat)
    requires Good(w) && prio < QUEUES && b != 0 && !w.Queued(b)
    ensures var w', n := Push(w, prio, b), Total(w.qs[..prio + 1]);
      && n <= |Flat(w.qs)| && Flat(w'.qs) == Flat(w.qs)[..n] + [b] + Flat(w.qs)[n..]
      && Pops(w', n + 1)[n..] == [b]
    ensures forall i, x :: 0 <= i < QUEUES ==>
      (x in Push(w, prio, b).qs[i] <==> x in w.qs[i] || (i == prio && x == b))
  {
    var w', n := Push(w, prio, b), Total(w.qs[..prio + 1]);
    FlatChange(w.qs, prio, b);
    StepGood(w, PushCall(prio, b));
    DrainOrder(w', n + 1);
  }

  /** A pop takes one block out of its queue and leaves every other where it is. */
  lemma PopLeavesOthers(w: Waiting)
    requires Good(w)
    ensures var (b, w') := Pop(w);
      |w'.qs| == QUEUES && forall i, x :: 0 <= i < QUEUES ==> (x in w'.qs[i] <==> x in w.qs[i] && (x != b || b == 0))
  {
    var i := Busiest(w.qs, 0);
    if i < |w.qs| {
      var q, b := w.qs[i], w.qs[i][0];
      assert q == [b] + q[1..] && b in q;
      forall j, x | 0 <= j < QUEUES ensures x in Pop(w).1.qs[j] <==> x in w.qs[j] && x != b {
        assert j != i && x == b ==> x !in w.qs[j];
        assert b !in q[1..];
      }
    } else {
      forall j | 0 <= j < QUEUES ensures w.qs[j] == [] {}
    }
  }

  /** Taking a block out says whether it waited, leaves it waiting nowhere, and leaves every queue otherwise
      as it is. */
  lemma DequeueOnly(w: Waiting, b: nat)
    requires Good(w)
    ensures var (ok, w') := Dequeue(w, b);
      && (ok <==> exists i :: 0 <= i < QUEUES && b in w.qs[i])
      && |w'.qs| == QUEUES && forall i :: 0 <= i < QUEUES ==> w'.qs[i] == Without(w.qs[i], b)
  {
    if w.Queued(b) {
      var i :| 0 <= i < |w.qs| && b in w.qs[i];
      DequeueAt(w, b, i);
      forall j | 0 <= j < QUEUES && j != i ensures w.qs[j] == Without(w.qs[j], b) { WithoutAbsent(w.qs[j], b); }
    } else {
      forall j | 0 <= j < QUEUES ensures w.qs[j] == Without(w.qs[j], b) { WithoutAbsent(w.qs[j], b); }
    }
  }

  // ----- runs

  datatype Call = PushCall(prio: nat, b: nat) | PopCall | DequeueCall(b: nat)

  /** A block is pushed only while it waits nowhere, and not dequeued twice. */
  ghost predicate Enabled(w: Waiting, c: Call) {
    match c
    case PushCall(prio, b) => prio < |w.qs| && b != 0 && !w.Queued(b)
    case PopCall => true
    case DequeueCall(b) => b !in w.stale
  }

  ghost function Step(w: Waiting, c: Call): Waiting
    requires Enabled(w, c)
  {
    match c
    case PushCall(prio, b) => Push(w, prio, b)
    case PopCall => Pop(w).1
    case DequeueCall(b) => Dequeue(w, b).1
  }

  /** One queue changed; the blocks it gains were nowhere, or stale. */
  lemma ChangeGood(w: Waiting, i: nat, q: seq<nat>, stale: set<nat>)
    requires Good(w) && i < |w.qs| && NoDup(q) && 0 !in q
    requires forall b :: b in q ==> (b in w.qs[i] || !w.Queued(b)) && b !in stale
    requires forall b :: b in stale ==> b in w.stale || (b in w.qs[i] && b !in q)
    ensures Good(Waiting(w.qs[i := q], stale))
  {
    var w' := Waiting(w.qs[i := q], stale);
    forall j, k, b | 0 <= j < QUEUES && 0 <= k < QUEUES && b in w'.qs[j] && b in w'.qs[k] ensures j == k {
      assert j != i ==> b in w.qs[j] && w.Queued(b);
      assert k != i ==> b in w.qs[k] && w.Queued(b);
    }
    forall b | b in stale ensures !w'.Queued(b) {
      forall j | 0 <= j < QUEUES ensures b !in w'.qs[j] {
        if j != i { assert w'.qs[j] == w.qs[j]; }
      }
    }
  }

  lemma PopGood(w: Waiting)
    requires Good(w)
    ensures Good(Pop(w).1)
  {
    var i := Busiest(w.qs, 0);
    if i < |w.qs| {
      forall b | b in w.qs[i][1..] ensures b in w.qs[i] && b !in w.stale { assert w.Queued(b); }
      ChangeGood(w, i, w.qs[i][1..], w.stale);
    }
  }

  lemma StepGood(w: Waiting, c: Call)
    requires Good(w) && Enabled(w, c)
    ensures Good(Step(w, c))
  {
    match c
    case PushCall(prio, b) =>
      forall x | x in w.qs[prio] ensures x != b && x !in w.stale { assert w.Queued(x); }
      ChangeGood(w, prio, w.qs[prio] + [b], w.stale - {b});
    case PopCall => PopGood(w);
    case DequeueCall(b) =>
      if w.Queued(b) {
        var i :| 0 <= i < |w.qs| && b in w.qs[i];
        DequeueAt(w, b, i);
        WithoutMembers(w.qs[i], b);
        forall x | x in w.qs[i] ensures x !in w.stale { assert w.Queued(x); }
        ChangeGood(w, i, Without(w.qs[i], b), w.stale + {b});
      }
  }

  ghost predicate Allowed(w: Waiting, calls: seq<Call>)
    decreases |calls|
  {
    calls != [] ==> Enabled(w, calls[0]) && Allowed(Step(w, calls[0]), calls[1..])
  }

  ghost function Run(w: Waiting, calls: seq<Call>): Waiting
    requires Allowed(w, calls)
    decreases |calls|
  {
    if calls == [] then w else Run(Step(w, calls[0]), calls[1..])
  }

  /** How many more blocks a run pushed than it took out, one way or the other. */
  ghost function Balance(w: Waiting, calls: seq<Call>): int
    requires Allowed(w, calls)
    decreases |calls|
  {
    if calls == [] then 0 else
    (match calls[0]
     case PushCall(_, _) => 1
     case PopCall => if Pop(w).0 != 0 then -1 else 0
     case DequeueCall(b) => if w.Queued(b) then -1 else 0) + Balance(Step(w, calls[0]), calls[1..])
  }

  lemma {:induction false} TotalChange(qs: seq<seq<nat>>, i: nat, q: seq<nat>)
    requires i < |qs|
    ensures Total(qs[i := q]) == Total(qs) - |qs[i]| + |q|
  {
    if i == 0 {
      assert qs[0 := q][1..] == qs[1..];
    } else {
      TotalChange(qs[1..], i - 1, q);
      assert qs[i := q][1..] == qs[1..][i - 1 := q];
    }
  }

  lemma StepCounts(w: Waiting, c: Call)
    requires Good(w) && Enabled(w, c)
    ensures Total(Step(w, c).qs) == Total(w.qs) +
      match c
      case PushCall(_, _) => 1
      case PopCall => if Pop(w).0 != 0 then -1 else 0
      case DequeueCall(b) => if w.Queued(b) then -1 else 0
  {
    match c
    case PushCall(prio, b) => TotalChange(w.qs, prio, w.qs[prio] + [b]);
    case PopCall =>
      var i := Busiest(w.qs, 0);
      if i < |w.qs| {
        assert w.qs[i][0] in w.qs[i];
        TotalChange(w.qs, i, w.qs[i][1..]);
      }
    case DequeueCall(b) =>
      if w.Queued(b) {
        var i :| 0 <= i < |w.qs| && b in w.qs[i];
        var k :| 0 <= k < |w.qs[i]| && w.qs[i][k] == b;
        DequeueAt(w, b, i);
        WithoutAt(w.qs[i], k);
        TotalChange(w.qs, i, Without(w.qs[i], b));
      }
  }

  /** After every run no block waits twice or is lost: as many wait as were pushed and not yet taken. */
  lemma {:induction false} RunGood(w: Waiting, calls: seq<Call>)
    requires Good(w) && Allowed(w, calls)
    ensures Good(Run(w, calls)) && Total(Run(w, calls).qs) == Total(w.qs) + Balance(w, calls)
    decreases |calls|
  {
    if calls != [] {
      StepGood(w, calls[0]);
      StepCounts(w, calls[0]);
      RunGood(Step(w, calls[0]), calls[1..]);
    }
  }
}
