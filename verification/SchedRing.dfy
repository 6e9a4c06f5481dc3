/** When cancelling a waiter goes wrong: exactly when it stands in a ring of waiters, each of which holds its priority
    for no reason but the waiter before it. The priority chain then comes back to the thread being cancelled, which
    waits in no queue any more. */
module SchedRing {
  import opened Lists
  import opened Sched
  import opened SchedInv
  import opened SchedChain
  import opened SchedCalls
  import opened SchedKeep
  import opened SchedGood
  import opened SchedExit

  /** Without the waiter `w0`, thread `v` would be less urgent than it is. */
  ghost predicate Hollow(s: State, v: nat, w0: nat) {
    && s.Susp(v) == 0 && s.Base(v) > s.Prio(v)
    && (forall w :: Blocker(s, w) == v && w != w0 ==> s.Prio(w) > s.Prio(v))
  }

  /** A path of waiters from `t`, each blocked by the next, each after the first hollow but for the one before it. */
  ghost predicate Trail(s: State, t: nat, c: seq<nat>) {
    && |c| > 0 && c[0] == t && NoDup(c)
    && (forall i :: 0 < i < |c| ==> Link(s, c, i))
  }

  ghost predicate Link(s: State, c: seq<nat>, i: int)
    requires 0 < i < |c|
  {
    Blocker(s, c[i - 1]) == c[i] && c[i] != 0 && Hollow(s, c[i], c[i - 1])
  }

  ghost predicate Ring(s: State, t: nat, c: seq<nat>) {
    Trail(s, t, c) && Blocker(s, c[|c| - 1]) == t && Hollow(s, t, c[|c| - 1])
  }

  /** A hollow thread has exactly the priority of the waiter it depends on. */
  lemma HollowPrio(s: State, v: nat, w0: nat)
    requires Hollow(s, v, w0) && IsEff(s, v, s.Prio(v))
    ensures s.Prio(v) == s.Prio(w0)
  {
  }

  lemma {:induction false} TrailPrio(s: State, t: nat, c: seq<nat>, i: nat)
    requires Good(s) && Trail(s, t, c) && i < |c|
    requires forall j :: 0 < j < |c| ==> s.Live(c[j])
    ensures s.Prio(c[i]) == s.Prio(t)
  {
    if i > 0 {
      TrailPrio(s, t, c, i - 1);
      assert Link(s, c, i) && Inherits(s, c[i]);
      HollowPrio(s, c[i], c[i - 1]);
    }
  }

  /** The chain has left `t` out of its queue and made exactly the threads of the trail less urgent. */
  ghost predicate Raised(s: State, s1: State, t: nat, c: seq<nat>) {
    && s1.d.st == s.d.st && s1.a == s.a.(prio := s1.a.prio)
    && Blocker(s1, t) == 0
    && (forall w :: RaisedAt(s, s1, t, c, w))
  }

  ghost predicate RaisedAt(s: State, s1: State, t: nat, c: seq<nat>, w: nat) {
    && (w != t ==> Blocker(s1, w) == Blocker(s, w))
    && (w == t || w !in c ==> s1.Prio(w) == s.Prio(w))
    && (w != t && w in c ==> s1.Prio(w) > s.Prio(t))
  }

  /** The situation of the chain at its next thread `v`. */
  ghost predicate Reached(s: State, s1: State, t: nat, c: seq<nat>, v: nat) {
    && Good(s) && s.St(t) == Waiting && Trail(s, t, c) && Raised(s, s1, t, c)
    && (forall j :: 0 < j < |c| ==> s.Live(c[j]))
    && v == Blocker(s, c[|c| - 1]) && v != 0 && (v == t || v !in c)
    && UpdateReady(s1, v, {t})
  }

  lemma NextInTrail(s: State, t: nat, c: seq<nat>, i: nat)
    requires Trail(s, t, c) && i + 1 < |c|
    ensures Blocker(s, c[i]) == c[i + 1] && c[i + 1] in c && c[i + 1] != t
  {
    assert Link(s, c, i + 1);
  }

  /** Of the trail's threads only the last is blocked by a thread off the trail, or by its first. */
  lemma InTrail(s: State, t: nat, c: seq<nat>, w: nat, v: nat)
    requires Trail(s, t, c) && w in c && Blocker(s, w) == v && (v == t || v !in c)
    ensures w == c[|c| - 1]
  {
    var i :| 0 <= i < |c| && c[i] == w;
    if i + 1 < |c| { NextInTrail(s, t, c, i); }
  }

  /** What the chain knows of `v`, the thread after the trail. */
  ghost predicate Next(s: State, s1: State, t: nat, c: seq<nat>, v: nat) {
    && Trail(s, t, c) && Raised(s, s1, t, c) && (v == t || v !in c) && v != 0
    && s.Prio(c[|c| - 1]) == s.Prio(t)
  }

  /** A waiter of `v` other than the end of the trail has kept its priority; the end of the trail has not become more
      urgent. */
  lemma WaiterOf(s: State, s1: State, t: nat, c: seq<nat>, v: nat, w: nat)
    requires Next(s, s1, t, c, v) && Blocker(s, w) == v
    ensures w != c[|c| - 1] ==> s1.Prio(w) == s.Prio(w)
    ensures s1.Prio(w) >= s.Prio(w)
    ensures w == c[|c| - 1] && w != t ==> s1.Prio(w) > s.Prio(t)
  {
    assert RaisedAt(s, s1, t, c, w) && c[|c| - 1] in c;
    if w in c { InTrail(s, t, c, w, v); }
  }

  lemma UnequalIsHollow(s: State, s1: State, t: nat, c: seq<nat>, v: nat, e: int)
    requires Next(s, s1, t, c, v) && s.Susp(v) == 0 && IsEff(s, v, s.Prio(v)) && IsEff(s1, v, e) && e != s.Prio(v)
    ensures Hollow(s, v, c[|c| - 1])
  {
    assert e > s.Prio(v) by {
      if e != s.Base(v) {
        var w :| Blocker(s1, w) == v && s1.Prio(w) == e;
        assert RaisedAt(s, s1, t, c, w);
        WaiterOf(s, s1, t, c, v, w);
      }
    }
    forall w | Blocker(s, w) == v && w != c[|c| - 1] ensures s.Prio(w) > s.Prio(v) {
      WaiterOf(s, s1, t, c, v, w);
      assert w == t || Blocker(s1, w) == v by { assert RaisedAt(s, s1, t, c, w); }
      if w == t { assert t == c[0] && t in c; InTrail(s, t, c, w, v); }
    }
  }

  lemma HollowIsUnequal(s: State, s1: State, t: nat, c: seq<nat>, v: nat, e: int)
    requires Next(s, s1, t, c, v) && IsEff(s, v, s.Prio(v)) && IsEff(s1, v, e) && Hollow(s, v, c[|c| - 1])
    ensures e > s.Prio(v) && s.Prio(v) == s.Prio(t)
  {
    HollowPrio(s, v, c[|c| - 1]);
    if e != s.Base(v) {
      var w :| Blocker(s1, w) == v && s1.Prio(w) == e;
      assert RaisedAt(s, s1, t, c, w);
      WaiterOf(s, s1, t, c, v, w);
    }
  }

  lemma ReachedFacts(s: State, s1: State, t: nat, c: seq<nat>, v: nat)
    requires Reached(s, s1, t, c, v)
    ensures Next(s, s1, t, c, v) && IsEff(s1, v, Effective(s1, v))
    ensures s1.Prio(v) == s.Prio(v) && s1.Susp(v) == s.Susp(v) && s.Susp(v) >= 0
    ensures s.Susp(v) == 0 ==> IsEff(s, v, s.Prio(v))
  {
    TrailPrio(s, t, c, |c| - 1);
    EffectiveIsMin(s1, v, {t});
    assert ThreadOk(s, {}, v) && RaisedAt(s, s1, t, c, v) && Inherits(s, v);
  }

  /** At `v` the chain goes on exactly when `v` is hollow. */
  lemma GoesOn(s: State, s1: State, t: nat, c: seq<nat>, v: nat)
    requires Reached(s, s1, t, c, v)
    ensures !(0 < s1.Susp(v) || s1.Prio(v) == Effective(s1, v)) <==> Hollow(s, v, c[|c| - 1])
    ensures Hollow(s, v, c[|c| - 1]) ==> Effective(s1, v) > s.Prio(t)
  {
    ReachedFacts(s, s1, t, c, v);
    HollowMeansUnequal(s, s1, t, c, v, Effective(s1, v));
  }

  lemma HollowMeansUnequal(s: State, s1: State, t: nat, c: seq<nat>, v: nat, e: int)
    requires Next(s, s1, t, c, v) && IsEff(s1, v, e) && s.Susp(v) >= 0
    requires s.Susp(v) == 0 ==> IsEff(s, v, s.Prio(v))
    ensures s.Susp(v) == 0 && s.Prio(v) != e <==> Hollow(s, v, c[|c| - 1])
    ensures Hollow(s, v, c[|c| - 1]) ==> e > s.Prio(t)
  {
    if s.Susp(v) == 0 {
      if s.Prio(v) != e { UnequalIsHollow(s, s1, t, c, v, e); }
      if Hollow(s, v, c[|c| - 1]) { HollowIsUnequal(s, s1, t, c, v, e); }
    }
  }

  lemma NoReturn(s: State, t: nat, c: seq<nat>, v: nat)
    requires Trail(s, t, c) && v !in c && Blocker(s, c[|c| - 1]) == v && v != 0 && Hollow(s, v, c[|c| - 1])
    requires forall w :: w in c ==> s.Prio(w) == s.Prio(v)
    ensures Trail(s, t, c + [v]) && (Blocker(s, v) == t || Blocker(s, v) !in c + [v] || Blocker(s, v) == v)
  {
    var c' := c + [v];
    forall i | 0 < i < |c'| ensures Link(s, c', i) { if i < |c| { assert Link(s, c, i); } }
    var u := Blocker(s, v);
    forall i | 0 < i < |c| ensures c[i] != u {
      assert Link(s, c, i) && c[i - 1] in c && c[i] in c;
    }
  }

  /** The hollow thread `v` joins the trail, and the chain moves on to whoever blocks it. */
  lemma RingStep(s: State, s1: State, t: nat, c: seq<nat>, v: nat)
    requires Reached(s, s1, t, c, v) && Hollow(s, v, c[|c| - 1]) && v != t
    ensures var (s2, u) := SetEffective(s1, v, Effective(s1, v));
      && u == Blocker(s, v)
      && (u == 0 ==> Update(s1, v, {t}) == s2 && !s2.d.fault)
      && (u != 0 ==>
         Reached(s, s2, t, c + [v], u) && Update(s1, v, {t}) == Update(s2, u, {t}) && Reach(s2, u) < Reach(s1, v))
  {
    GoesOn(s, s1, t, c, v);
    UpdateUnfold(s1, v, {t});
    UpdateStep(s1, v, {t});
    var e := Effective(s1, v);
    var (s2, u) := SetEffective(s1, v, e);
    RaisedStep(s, s1, s2, t, c, v, e);
    assert RaisedAt(s, s1, t, c, v) && ThreadOk(s, {}, v);
    if u != 0 {
      forall w | w in c ensures s.Prio(w) == s.Prio(v) {
        var i :| 0 <= i < |c| && c[i] == w;
        TrailPrio(s, t, c, i);
        ReachedFacts(s, s1, t, c, v);
        HollowPrio(s, v, c[|c| - 1]);
      }
      NoReturn(s, t, c, v);
    }
  }

  lemma RaisedStep(s: State, s1: State, s2: State, t: nat, c: seq<nat>, v: nat, e: int)
    requires Raised(s, s1, t, c) && v != t && v !in c && e > s.Prio(t)
    requires StepOf(s1, s2, v) && s2.a.prio == s1.a.prio[v := e]
    ensures Raised(s, s2, t, c + [v])
  {
    assert SameStand(s1, s2, t);
    forall w ensures RaisedAt(s, s2, t, c + [v], w) { assert RaisedAt(s, s1, t, c, w) && SameStand(s1, s2, w); }
  }

  lemma {:induction false} FaultMakesRing(s: State, s1: State, t: nat, c: seq<nat>, v: nat)
    requires Reached(s, s1, t, c, v) && Update(s1, v, {t}).d.fault
    ensures exists r :: Ring(s, t, r)
    decreases Reach(s1, v)
  {
    GoesOn(s, s1, t, c, v);
    UpdateUnfold(s1, v, {t});
    if Hollow(s, v, c[|c| - 1]) {
      if v == t {
        assert Ring(s, t, c);
      } else {
        RingStep(s, s1, t, c, v);
        var (s2, u) := SetEffective(s1, v, Effective(s1, v));
        if u != 0 { FaultMakesRing(s, s2, t, c + [v], u); }
      }
    }
  }

  lemma {:induction false} RingMakesFault(s: State, s1: State, t: nat, c: seq<nat>, v: nat, r: seq<nat>)
    requires Reached(s, s1, t, c, v) && Ring(s, t, r) && c <= r
    ensures Update(s1, v, {t}).d.fault
    decreases |r| - |c|
  {
    assert c[|c| - 1] == r[|c| - 1];
    GoesOn(s, s1, t, c, v);
    UpdateUnfold(s1, v, {t});
    if |c| == |r| {
      assert c == r && v == t;
    } else {
      assert Link(s, r, |c|) && v == r[|c|] && r[|c|] != r[0];
      RingStep(s, s1, t, c, v);
      var (s2, u) := SetEffective(s1, v, Effective(s1, v));
      assert c + [v] <= r;
      assert u != 0 by {
        assert ThreadOk(s, {}, 0);
        if |r| > |c| + 1 { assert Link(s, r, |c| + 1); }
      }
      RingMakesFault(s, s2, t, c + [v], u, r);
    }
  }

  lemma UnplacedReached(s: State, t: nat)
    requires Good(s) && s.St(t) == Waiting && s.Susp(t) == 0 && s.Mutex(t) != 0
    ensures Reached(s, Unplaced(s, t), t, [t], Blocker(s, t))
    ensures Evict(s, t) == Update(Unplaced(s, t), Blocker(s, t), {t})
  {
    var s1, u := Unplaced(s, t), Blocker(s, t);
    UnplacedReady(s, t);
    assert ThreadOk(s, {}, t);
    forall w ensures RaisedAt(s, s1, t, [t], w) {}
  }

  /** Cancelling a live thread corrupts memory if and only if the thread stands in such a ring. */
  lemma CancelFaultsIff(s: State, t: nat)
    requires Good(s) && s.Live(t)
    ensures Evict(s, t).d.fault <==> exists c :: Ring(s, t, c)
  {
    assert ThreadOk(s, {}, t) && ThreadOk(s, {}, 0);
    if s.St(t) == Waiting && s.Susp(t) == 0 && s.Mutex(t) != 0 {
      UnplacedReached(s, t);
      var s1, u := Unplaced(s, t), Blocker(s, t);
      if Evict(s, t).d.fault { FaultMakesRing(s, s1, t, [t], u); }
      if c :| Ring(s, t, c) { RingMakesFault(s, s1, t, [t], u, c); }
    } else {
      forall c ensures !Ring(s, t, c) { NoRing(s, t, c); }
      if s.St(t) == Ready { EvictReady(s, t); } else if s.St(t) == Running { EvictRunning(s, t); }
    }
  }

  lemma NoRing(s: State, t: nat, c: seq<nat>)
    requires Good(s) && t != 0 && (s.St(t) != Waiting || s.Susp(t) != 0 || s.Mutex(t) == 0)
    ensures !Ring(s, t, c)
  {
    assert ThreadOk(s, {}, t);
    if Trail(s, t, c) && |c| > 1 { assert Link(s, c, 1); }
  }
}
