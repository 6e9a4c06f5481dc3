/** The two loops that follow a waiter to its owner, and that owner to the next. */
module SchedChain {
  import opened Lists
  import opened Sched
  import opened SchedInv

  /** `t` waits, if at all, where it did; and if no reschedule was asked for, it competes as it did. */
  ghost predicate SameStand(s: State, s': State, t: nat) {
    && Blocker(s', t) == Blocker(s, t)
    && (s.St(t) == Waiting ==> s'.Queue(t) == s.Queue(t))
    && (!s'.d.hint && s.St(t) != Waiting ==> s'.Prio(t) == s.Prio(t))
  }

  /** The fields a change of effective priority leaves alone, and what it does to the rest. */
  ghost predicate Retuned(s: State, s': State) {
    SameFields(s, s') && forall t :: SameStand(s, s', t)
  }

  ghost predicate SameFields(s: State, s': State) {
    && s'.a == s.a.(prio := s'.a.prio)
    && s'.d == s.d.(queue := s'.d.queue, q := s'.d.q, bits := s'.d.bits, hint := s'.d.hint)
    && (s.d.hint ==> s'.d.hint)
  }

  lemma RequeueWF(s: State, t: nat, p: int, X: set<nat>)
    requires WF(s, X) && s.St(t) == Waiting && t !in X
    requires 0 <= p <= 32 && (s.Susp(t) == 0 ==> p < 32) && (s.Susp(t) > 0 ==> p == 32)
    ensures WF(Requeue(s, t, p), X)
  {
    assert ThreadOk(s, X, t);
    UnparkWF(s, t, X);
    var s1 := Unpark(s, t);
    var s2 := s1.PutPrio(t, p);
    assert ThreadOk(s1, X + {t}, t);
    AdjustWF(s1, s2, t, X + {t});
    ParkWF(s2, t, X + {t});
    assert X + {t} - {t} == X;
  }

  lemma RerunWF(s: State, t: nat, p: int, X: set<nat>)
    requires WF(s, X) && s.Runnable(t) && t !in X && 0 <= p < 32
    ensures WF(Rerun(s, t, p), X)
  {
    assert ThreadOk(s, X, t);
    UnsetRunWF(s, t, X);
    var s1 := UnsetRun(s, t);
    var s2 := s1.PutPrio(t, p);
    assert ThreadOk(s1, X + {t}, t);
    AdjustWF(s1, s2, t, X + {t});
    SetRunWF(s2, t, X + {t});
    assert X + {t} - {t} == X;
  }

  lemma RerateWF(s: State, t: nat, p: int, X: set<nat>)
    requires WF(s, X) && s.St(t) == Running && t !in X && 0 <= p < 32
    ensures WF(s.Hint().PutPrio(t, p), X)
  {
    var s1 := s.Hint().PutPrio(t, p);
    forall k, u ensures Located(s1, X, k, u) { assert Located(s, X, k, u); }
    forall k ensures QueueOk(s1, k) {
      assert QueueOk(s, k) && Located(s, X, k, t);
      if !k.RunQ? { SortedFrame(s.Q(k), s.a.prio, s1.a.prio); }
    }
    forall u ensures ThreadOk(s1, X, u) { assert ThreadOk(s, X, u); }
    forall m ensures MutexOk(s1, X, m) { assert MutexOk(s, X, m); }
  }

  /** The three ways a live thread changes priority. */
  lemma SetEffectiveCases(s: State, t: nat, p: int, X: set<nat>)
    requires WF(s, X) && t !in X && s.Live(t) && s.Susp(t) == 0
    ensures s.St(t) == Ready ==> SetEffective(s, t, p) == (Rerun(s, t, p), 0)
    ensures s.St(t) == Waiting ==> SetEffective(s, t, p) == (Requeue(s, t, p), Blocker(s, t)) && s.Queue(t) != NoQ
    ensures s.St(t) == Running ==> SetEffective(s, t, p) == (s.Hint().PutPrio(t, p), 0)
    ensures Blocker(s, t) != t
  {
    assert ThreadOk(s, X, t);
    if s.St(t) == Waiting { assert ParkedOk(s, t); }
  }

  lemma RerunRetunes(s: State, t: nat, p: int)
    requires s.St(t) == Ready
    ensures var s' := Rerun(s, t, p); Retuned(s, s') && s'.a.prio == s.a.prio[t := p]
  {
    var s' := Rerun(s, t, p);
    forall w ensures SameStand(s, s', w) {}
  }

  lemma RequeueRetunes(s: State, t: nat, p: int)
    requires s.St(t) == Waiting
    ensures Retuned(s, Requeue(s, t, p)) && Requeue(s, t, p).a.prio == s.a.prio[t := p]
  {
    var s' := Requeue(s, t, p);
    forall w ensures SameStand(s, s', w) {}
  }

  lemma SetEffectiveRetunes(s: State, t: nat, p: int, X: set<nat>)
    requires WF(s, X) && t !in X && s.Live(t) && s.Susp(t) == 0
    ensures var (s', u) := SetEffective(s, t, p);
      Retuned(s, s') && s'.a.prio == s.a.prio[t := p] && u == Blocker(s, t) && u != t
  {
    SetEffectiveCases(s, t, p, X);
    if s.St(t) == Ready {
      RerunRetunes(s, t, p);
    } else if s.St(t) == Waiting {
      RequeueRetunes(s, t, p);
    } else {
      var s' := s.Hint().PutPrio(t, p);
      forall w ensures SameStand(s, s', w) {}
    }
  }

  /** One step of either chain: `t` gets priority `p` and everything stays sound. */
  lemma SetEffectiveWF(s: State, t: nat, p: int, X: set<nat>)
    requires WF(s, X) && t !in X && s.Live(t) && s.Susp(t) == 0 && 0 <= p < 32
    ensures WF(SetEffective(s, t, p).0, X)
  {
    assert ThreadOk(s, X, t);
    match s.St(t)
    case Ready => RerunWF(s, t, p, X);
    case Waiting => RequeueWF(s, t, p, X);
    case Running => RerateWF(s, t, p, X);
  }

  // ----- one step of a chain, seen as a change of one priority

  ghost predicate StepOf(s: State, s': State, t: nat) {
    && Retuned(s, s') && Blocker(s, t) != t
    && (forall w :: w != t ==> s'.Prio(w) == s.Prio(w))
  }

  /** Nobody but `t` and the thread that blocks it can notice that `t` changed. */
  lemma StepInherits(s: State, s': State, t: nat, v: nat)
    requires StepOf(s, s', t) && v != t && v != Blocker(s, t) && Inherits(s, v)
    ensures Inherits(s', v)
  {
    if s'.Live(v) && s'.Susp(v) == 0 { KeepsEff(s, s', t, v, s.Prio(v)); }
  }

  lemma KeepsEff(s: State, s': State, t: nat, v: nat, e: int)
    requires StepOf(s, s', t) && v != Blocker(s, t) && IsEff(s, v, e)
    ensures IsEff(s', v, e)
  {
    forall w | Blocker(s', w) == v ensures e <= s'.Prio(w) { assert SameStand(s, s', w); }
    if e != s.Base(v) {
      var w :| Blocker(s, w) == v && s.Prio(w) == e;
      assert SameStand(s, s', w) && Blocker(s', w) == v;
    }
  }

  /** `t` became more urgent: the thread that blocks it either need not move, or must take exactly `t`'s priority. */
  lemma DropAt(s: State, s': State, t: nat)
    requires StepOf(s, s', t) && s'.Prio(t) < s.Prio(t)
    requires var u := Blocker(s, t); IsEff(s, u, s.Prio(u))
    ensures var u, p := Blocker(s, t), s'.Prio(t); IsEff(s', u, if s.Prio(u) <= p then s.Prio(u) else p)
  {
    var u, p := Blocker(s, t), s'.Prio(t);
    var e := if s.Prio(u) <= p then s.Prio(u) else p;
    assert SameStand(s, s', t);
    forall w | Blocker(s', w) == u ensures e <= s'.Prio(w) { assert SameStand(s, s', w); }
    if s.Prio(u) <= p && e != s.Base(u) {
      var w :| Blocker(s, w) == u && s.Prio(w) == e;
      assert SameStand(s, s', w) && w != t;
    }
  }

  /** `t` became less urgent: so may the thread that blocks it, which was at least as urgent as `t`. */
  lemma RiseAt(s: State, s': State, t: nat, e: int)
    requires StepOf(s, s', t) && s'.Prio(t) > s.Prio(t)
    requires var u := Blocker(s, t); IsEff(s, u, s.Prio(u)) && IsEff(s', u, e)
    ensures s.Prio(Blocker(s, t)) <= s.Prio(t) && s.Prio(Blocker(s, t)) <= e
  {
    var u := Blocker(s, t);
    if e != s.Base(u) {
      var w :| Blocker(s', w) == u && s'.Prio(w) == e;
      assert SameStand(s, s', w);
    }
  }

  // ----- UpdatePriority

  /** Every thread but `t` inherits; the threads in transit wait in no queue. */
  ghost predicate UpdateReady(s: State, t: nat, X: set<nat>) {
    && WF(s, X) && t != 0 && s.Live(t)
    && (forall u :: u != t ==> Inherits(s, u))
    && (forall w :: w in X ==> s.St(w) == Waiting && s.Queue(w) == NoQ)
  }

  ghost function Below(prio: map<nat, int>, p: int): set<nat> {
    set t | t in prio && prio[t] <= p
  }

  /** How many more threads the chain from `t` can reach. A chain of rises only meets threads no less urgent than
      the first was; a chain of drops only meets threads less urgent than the first becomes. */
  ghost function Reach(s: State, t: nat): nat {
    var e := Effective(s, t);
    if 0 < s.Susp(t) || s.Prio(t) == e then 0
    else if s.Prio(t) < e then 1 + |Below(s.a.prio, s.Prio(t))|
    else 1 + |Above(s.a.prio, e)|
  }

  /** One step of the chain hands the same situation on to the next thread, with less left to reach. */
  lemma UpdateStep(s: State, t: nat, X: set<nat>)
    requires UpdateReady(s, t, X) && !(0 < s.Susp(t)) && s.Prio(t) != Effective(s, t) && t !in X
    ensures var e := Effective(s, t);
      var (s', u) := SetEffective(s, t, e);
      && 0 <= e < 32 && StepOf(s, s', t) && s'.a.prio == s.a.prio[t := e] && u == Blocker(s, t) && WF(s', X)
      && (forall v :: v != u ==> Inherits(s', v))
      && (u != 0 ==> UpdateReady(s', u, X) && Reach(s', u) < Reach(s, t))
  {
    var e := Effective(s, t);
    assert ThreadOk(s, X, t);
    EffectiveIsMin(s, t, X);
    assert 0 <= e < 32 by { EffRange(s, t, e, X); }
    SetEffectiveRetunes(s, t, e, X);
    SetEffectiveWF(s, t, e, X);
    var (s', u) := SetEffective(s, t, e);
    KeepsEff(s, s', t, t, e);
    forall v | v != u ensures Inherits(s', v) {
      if v != t { StepInherits(s, s', t, v); }
    }
    if u != 0 {
      assert MutexOk(s, X, s.Queue(t).m) && s.Live(u);
      assert UpdateReady(s', u, X) by {
        forall w | w in X ensures s'.St(w) == Waiting && s'.Queue(w) == NoQ { assert SameStand(s, s', w); }
      }
      UpdateReaches(s, t, X, s');
    }
  }

  lemma EffRange(s: State, t: nat, e: int, X: set<nat>)
    requires WF(s, X) && s.Live(t) && IsEff(s, t, e) && t != 0
    ensures 0 <= e < 32
  {
    assert ThreadOk(s, X, t);
    if e != s.Base(t) {
      var w :| Blocker(s, w) == t && s.Prio(w) == e;
      assert ThreadOk(s, X, w);
    }
  }

  lemma UpdateReaches(s: State, t: nat, X: set<nat>, s': State)
    requires UpdateReady(s, t, X) && !(0 < s.Susp(t)) && t !in X && s.Prio(t) != Effective(s, t)
    requires StepOf(s, s', t) && s'.a.prio == s.a.prio[t := Effective(s, t)]
    requires var u := Blocker(s, t); u != 0 && s.Live(u) && UpdateReady(s', u, X)
    ensures Reach(s', Blocker(s, t)) < Reach(s, t)
  {
    var e, u := Effective(s, t), Blocker(s, t);
    var f := Effective(s', u);
    assert ThreadOk(s, X, t) && ThreadOk(s, X, u);
    if !(0 < s'.Susp(u)) && s'.Prio(u) != f {
      assert Inherits(s, u);
      EffectiveIsMin(s', u, X);
      if s.Prio(t) < e {
        RiseAt(s, s', t, f);
        assert Below(s'.a.prio, s'.Prio(u)) <= Below(s.a.prio, s.Prio(t)) - {t};
        Smaller(Below(s'.a.prio, s'.Prio(u)), Below(s.a.prio, s.Prio(t)), t);
      } else {
        DropAt(s, s', t);
        EffUnique(s', u, f, if s.Prio(u) <= e then s.Prio(u) else e);
        assert Above(s'.a.prio, f) <= Above(s.a.prio, e) - {t};
        Smaller(Above(s'.a.prio, f), Above(s.a.prio, e), t);
      }
    }
  }

  lemma Smaller(a: set<nat>, b: set<nat>, t: nat)
    requires a <= b - {t} && t in b
    ensures |a| < |b|
  {
    Subset(a, b - {t});
  }

  lemma {:induction false} Subset(a: set<nat>, b: set<nat>)
    requires a <= b
    ensures |a| <= |b|
  {
    if a != {} {
      var x :| x in a;
      Subset(a - {x}, b - {x});
    }
  }

  /** Recomputes `t`'s effective priority and carries the change down the chain of owners. */
  ghost function Update(s: State, t: nat, X: set<nat>): State
    requires UpdateReady(s, t, X)
    decreases Reach(s, t)
  {
    if 0 < s.Susp(t) then s else
    var e := Effective(s, t);
    if s.Prio(t) == e then s else
    var (s', u) := SetEffective(s, t, e);
    if u == 0 then s' else
    assert t !in X;
    UpdateStep(s, t, X);
    Update(s', u, X)
  }

  /** Where the chain stops, and what it leaves to do where it does not. */
  lemma UpdateUnfold(s: State, t: nat, X: set<nat>)
    requires UpdateReady(s, t, X)
    ensures 0 < s.Susp(t) || s.Prio(t) == Effective(s, t) ==> Update(s, t, X) == s
    ensures !(0 < s.Susp(t) || s.Prio(t) == Effective(s, t)) ==>
      var (s', u) := SetEffective(s, t, Effective(s, t));
      && (u == 0 ==> Update(s, t, X) == s')
      && (u != 0 ==>
         t !in X && UpdateReady(s', u, X) && Reach(s', u) < Reach(s, t) && Update(s, t, X) == Update(s', u, X))
      && (t in X ==> s'.d.fault)
  {
    if !(0 < s.Susp(t) || s.Prio(t) == Effective(s, t)) {
      if t !in X { UpdateStep(s, t, X); }
    }
  }

  lemma {:induction false} UpdateWF(s: State, t: nat, X: set<nat>)
    requires UpdateReady(s, t, X)
    ensures var s' := Update(s, t, X); !s'.d.fault ==> WF(s', X)
    decreases Reach(s, t)
  {
    UpdateUnfold(s, t, X);
    if !(0 < s.Susp(t) || s.Prio(t) == Effective(s, t)) && t !in X {
      UpdateStep(s, t, X);
      var (s', u) := SetEffective(s, t, Effective(s, t));
      if u != 0 { UpdateWF(s', u, X); }
    }
  }

  lemma {:induction false} UpdateRetunes(s: State, t: nat, X: set<nat>)
    requires UpdateReady(s, t, X)
    ensures var s' := Update(s, t, X); !s'.d.fault ==> Retuned(s, s')
    decreases Reach(s, t)
  {
    UpdateUnfold(s, t, X);
    if !(0 < s.Susp(t) || s.Prio(t) == Effective(s, t)) && t !in X {
      UpdateStep(s, t, X);
      var (s', u) := SetEffective(s, t, Effective(s, t));
      if u != 0 {
        UpdateRetunes(s', u, X);
        if !Update(s', u, X).d.fault { RetunedTrans(s, s', Update(s', u, X)); }
      }
    } else {
      forall v ensures SameStand(s, s, v) {}
    }
  }

  /** The chain leaves priority inheritance holding of every thread, unless it ran into a thread in transit. */
  lemma {:induction false} UpdateInherits(s: State, t: nat, X: set<nat>)
    requires UpdateReady(s, t, X)
    ensures var s' := Update(s, t, X); !s'.d.fault ==> forall v :: Inherits(s', v)
    decreases Reach(s, t)
  {
    UpdateUnfold(s, t, X);
    if 0 < s.Susp(t) || s.Prio(t) == Effective(s, t) {
      EffectiveIsMin(s, t, X);
    } else if t !in X {
      UpdateStep(s, t, X);
      var (s', u) := SetEffective(s, t, Effective(s, t));
      if u != 0 {
        UpdateInherits(s', u, X);
      } else {
        assert ThreadOk(s', X, 0);
      }
    }
  }

  lemma RetunedTrans(a: State, b: State, c: State)
    requires Retuned(a, b) && Retuned(b, c)
    ensures Retuned(a, c)
  {
    forall t ensures SameStand(a, c, t) { assert SameStand(a, b, t) && SameStand(b, c, t); }
  }

  // ----- OSPromoteThread

  /** Threads off the chain keep their priority; those on it drop to `p` exactly. */
  ghost predicate Promoted(s: State, s': State, p: int, t: nat) {
    s'.Prio(t) == s.Prio(t) || (s'.Prio(t) == p && p < s.Prio(t))
  }

  /** Promotion from `t`, when inheritance holds of all but `t` and a thread `z` already as urgent as `p`. */
  lemma {:induction false} PromoteChain(s: State, t: nat, p: nat, z: nat)
    requires WF(s, {}) && p < 32 && t != 0 && s.Live(t) && s.Prio(z) <= p
    requires forall u :: u != t && u != z ==> Inherits(s, u)
    requires t != z && s.Susp(t) == 0 ==> IsEff(s, t, if s.Prio(t) <= p then s.Prio(t) else p)
    ensures var s' := Promote(s, t, p);
      && WF(s', {}) && Retuned(s, s')
      && (forall u :: Promoted(s, s', p, u))
      && (forall u :: u != z ==> Inherits(s', u))
    decreases |Above(s.a.prio, p)|
  {
    assert ThreadOk(s, {}, t);
    if !(0 < s.Susp(t) || s.Prio(t) <= p) {
      PromoteStep(s, t, p, z);
      var (s', u) := SetEffective(s, t, p);
      if u != 0 {
        AboveShrinks(s.a.prio, t, p);
        PromoteChain(s', u, p, z);
        RetunedTrans(s, s', Promote(s', u, p));
        forall v ensures Promoted(s, Promote(s', u, p), p, v) {
          assert Promoted(s, s', p, v) && Promoted(s', Promote(s', u, p), p, v);
        }
      } else {
        assert ThreadOk(s', {}, 0);
      }
    }
  }

  lemma PromoteStep(s: State, t: nat, p: nat, z: nat)
    requires WF(s, {}) && p < 32 && t != 0 && s.Live(t) && s.Prio(z) <= p < s.Prio(t) && s.Susp(t) == 0
    requires forall u :: u != t && u != z ==> Inherits(s, u)
    requires t != z ==> IsEff(s, t, p)
    ensures var (s', u) := SetEffective(s, t, p);
      && WF(s', {}) && StepOf(s, s', t) && s'.a.prio == s.a.prio[t := p] && u == Blocker(s, t) && s'.Prio(z) <= p
      && (forall v :: Promoted(s, s', p, v))
      && (forall v :: v != u && v != z ==> Inherits(s', v))
      && (u != 0 ==>
         s'.Live(u) && (u != z && s'.Susp(u) == 0 ==> IsEff(s', u, if s'.Prio(u) <= p then s'.Prio(u) else p)))
  {
    SetEffectiveRetunes(s, t, p, {});
    SetEffectiveWF(s, t, p, {});
    var (s', u) := SetEffective(s, t, p);
    KeepsEff(s, s', t, t, p);
    forall v | v != u && v != z ensures Inherits(s', v) {
      if v != t { StepInherits(s, s', t, v); }
    }
    if u != 0 {
      assert ThreadOk(s, {}, t) && MutexOk(s, {}, s.Queue(t).m);
      if u != z && s'.Susp(u) == 0 {
        assert Inherits(s, u);
        DropAt(s, s', t);
      }
    }
  }
}
