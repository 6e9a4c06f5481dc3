/** A thread that exits or is cancelled gives up its mutexes and wakes whoever waited for it. */
module SchedExit {
  import opened Lists
  import opened Sched
  import opened SchedInv
  import opened SchedChain
  import opened SchedCalls
  import opened SchedKeep
  import opened SchedGood
  import opened SchedMutex

  /** `d` is no longer live but may still own mutexes and have joiners. */
  ghost predicate Dying(s: State, d: nat) {
    && WF(s, {d}) && d != 0 && !s.Live(d)
    && (forall v :: Inherits(s, v))
    && RestBut(s, {JoinQ(d)})
  }

  /** The next call of `SelectThread` puts dispatching right. */
  ghost predicate Steady(s: State) {
    HintOk(s) && (CurOk(s) || s.a.resched <= 0)
  }

  lemma DisownWF(s: State, d: nat)
    requires Dying(s, d) && s.Own(d) != []
    ensures var m := s.Own(d)[0]; s.Owner(m) == d && WF(Disown(s, d), {d})
  {
    var m, s' := s.Own(d)[0], Disown(s, d);
    assert m in s.Own(d);
    WithoutHead(s.Own(d));
    OwnersDrop(s.a.own, s.a.owner, m);
    forall k, u ensures Located(s', {d}, k, u) { assert Located(s, {d}, k, u); }
    forall k ensures QueueOk(s', k) { assert QueueOk(s, k); }
    forall u ensures ThreadOk(s', {d}, u) { assert ThreadOk(s, {d}, u); }
    forall n ensures MutexOk(s', {d}, n) { assert MutexOk(s, {d}, n); }
  }

  lemma DisownKeeps(s: State, d: nat)
    requires Dying(s, d) && s.Own(d) != []
    ensures var m, s' := s.Own(d)[0], Disown(s, d);
      && WF(s', {d}) && (forall v :: Inherits(s', v)) && RestBut(s', {JoinQ(d), MutexQ(m)})
         && (Steady(s) ==> Steady(s'))
  {
    var m, s' := s.Own(d)[0], Disown(s, d);
    DisownWF(s, d);
    assert ThreadOk(s, {d}, 0);
    forall v ensures Inherits(s', v) {
      forall w ensures v != 0 && v != d ==> SameClaim(s, s', w, v) {}
      if v != 0 && v != d { InheritsBy(s, s', v); }
    }
    forall t ensures WaitOk(s', t, {JoinQ(d), MutexQ(m)}) { assert WaitOk(s, t, {JoinQ(d)}); }
    SameDispatch(s, s');
  }

  lemma WokenRest(s: State, d: nat, k: Qid)
    requires WF(s, {d}) && !s.Live(d) && s.Q(k) == [] && RestBut(s, {JoinQ(d), k})
    ensures RestBut(s, {JoinQ(d)} - {k})
  {
    forall t ensures WaitOk(s, t, {JoinQ(d)} - {k}) {
      assert Located(s, {d}, k, t) && WaitOk(s, t, {JoinQ(d), k});
    }
  }

  /** Waking one queue on behalf of a dying thread. */
  lemma DyingWakeup(s: State, d: nat, k: Qid)
    requires WF(s, {d}) && d != 0 && !s.Live(d) && (forall v :: Inherits(s, v)) && RestBut(s, {JoinQ(d), k})
    requires !k.RunQ? && (k.MutexQ? ==> s.Owner(k.m) == 0) && (CurOk(s) || s.a.resched <= 0)
    ensures var s' := Wakeup(s, k);
      && WF(s', {d}) && !s'.Live(d) && (forall v :: Inherits(s', v)) && RestBut(s', {JoinQ(d)} - {k})
      && (CurOk(s') || s'.a.resched <= 0) && (HintOk(s) ==> HintOk(s'))
  {
    var s1 := WakeAll(s, k);
    hide WakeAll, Inherits, WF, CurOk, HintOk, Select;
    WakeAllWF(s, k, {d});
    CalmInherits(s, s1);
    CalmRest(s, s1, {JoinQ(d), k});
    assert Calm(s, s1, d);
    WokenRest(s1, d, k);
    hide RestBut;
    if !s1.d.hint || 0 < s1.a.resched {
      assert Wakeup(s, k) == s1;
    } else {
      var s2 := Select(s1, false);
      assert Wakeup(s, k) == s2;
      SelectWF(s1, false, {d});
      CalmInherits(s1, s2);
      CalmRest(s1, s2, {JoinQ(d)} - {k});
      assert Calm(s1, s2, d);
    }
  }

  lemma {:induction false} UnlockAllDying(s: State, d: nat)
    requires Dying(s, d) && (CurOk(s) || s.a.resched <= 0)
    ensures var s' := UnlockAll(s, d);
      Dying(s', d) && s'.Own(d) == [] && (CurOk(s') || s'.a.resched <= 0) && (HintOk(s) ==> HintOk(s'))
        && s'.a.resched == s.a.resched
    decreases |s.Own(d)|
  {
    if s.Own(d) != [] {
      var m := s.Own(d)[0];
      DisownKeeps(s, d);
      var s1 := Disown(s, d);
      DyingWakeup(s1, d, MutexQ(m));
      var s2 := Wakeup(s1, MutexQ(m));
      assert {JoinQ(d)} - {MutexQ(m)} == {JoinQ(d)};
      assert UnlockAll(s, d) == UnlockAll(s2, d);
      if HintOk(s) { DisownHint(s, d); }
      UnlockAllDying(s2, d);
    }
  }

  lemma DisownHint(s: State, d: nat)
    requires s.Own(d) != [] && HintOk(s)
    ensures HintOk(Disown(s, d))
  {
    SameDispatch(s, Disown(s, d));
  }

  /** Once the mutexes are free and the joiners awake, nothing is left of the dead thread. */
  lemma LastRites(s: State, d: nat)
    requires Dying(s, d) && (CurOk(s) || s.a.resched <= 0)
    ensures var s' := Wakeup(UnlockAll(s, d), JoinQ(d));
      Sane(s') && (CurOk(s') || s'.a.resched <= 0) && (HintOk(s) ==> HintOk(s')) && s'.a.resched == s.a.resched
  {
    var s1 := UnlockAll(s, d);
    var s' := Wakeup(s1, JoinQ(d));
    hide UnlockAll, Wakeup, WF, Inherits, CurOk, HintOk, RestBut;
    UnlockAllDying(s, d);
    assert {JoinQ(d), JoinQ(d)} == {JoinQ(d)} && {JoinQ(d)} - {JoinQ(d)} == {};
    DyingWakeup(s1, d, JoinQ(d));
    WakeupAttrs(s1, JoinQ(d));
    OwnsNothing(s', d);
    FreeWF(s', d, {d});
    assert {d} - {d} == {};
  }

  lemma WakeupAttrs(s: State, k: Qid)
    requires !k.RunQ?
    ensures Wakeup(s, k).a == s.a
  {
  }

  lemma OwnsNothing(s: State, d: nat)
    requires WF(s, {d}) && s.Own(d) == [] && d != 0
    ensures forall m :: s.Owner(m) != d
  {
    forall m ensures s.Owner(m) != d { assert Owns(s.a.own, s.a.owner, d, m); }
  }

  lemma RetireInherits(s: State, d: nat)
    requires WF(s, {d}) && s.Live(d) && (s.St(d) == Waiting ==> s.Queue(d) == NoQ)
    requires forall v :: v != d ==> Inherits(s, v)
    ensures forall v :: Inherits(Retire(s, d), v)
  {
    var s' := Retire(s, d);
    RetireCases(s, d);
    forall v ensures Inherits(s', v) {
      forall w ensures v != d ==> SameClaim(s, s', w, v) { assert ThreadOk(s, {d}, 0); }
      if v != d { InheritsBy(s, s', v); }
    }
  }

  /** A thread outside every queue and owing nobody a wake-up stops being live. */
  lemma RetireDying(s: State, d: nat)
    requires WF(s, {d}) && s.Live(d) && (s.St(d) == Waiting ==> s.Queue(d) == NoQ)
    requires (forall v :: v != d ==> Inherits(s, v)) && RestBut(s, {})
    ensures Dying(Retire(s, d), d) && Retire(s, d).a.resched == s.a.resched
    ensures s.d.hint ==> Retire(s, d).d.hint
    ensures s.d.cur != d ==> (HintOk(s) ==> HintOk(Retire(s, d))) && (CurOk(s) ==> CurOk(Retire(s, d)))
  {
    assert ThreadOk(s, {d}, d) && ThreadOk(s, {d}, 0);
    hide WF, Retire, Inherits, HintOk, CurOk, RestBut;
    RetireWF(s, d);
    RetireInherits(s, d);
    RetireRest(s, d);
    RetireDispatch(s, d);
  }

  lemma RetireRest(s: State, d: nat)
    requires WF(s, {d}) && s.Live(d) && (s.St(d) == Waiting ==> s.Queue(d) == NoQ) && RestBut(s, {})
    ensures RestBut(Retire(s, d), {JoinQ(d)}) && !Retire(s, d).Live(d)
  {
    var s' := Retire(s, d);
    hide WF, Retire;
    RetireCases(s, d);
    RetireActive(s, d);
    forall t ensures WaitOk(s', t, {JoinQ(d)}) { assert WaitOk(s, t, {}); }
  }

  lemma RetireDispatch(s: State, d: nat)
    requires s.Live(d) && (s.St(d) == Waiting ==> s.Queue(d) == NoQ)
    ensures Retire(s, d).a.resched == s.a.resched && (s.d.hint ==> Retire(s, d).d.hint)
    ensures s.d.cur != d ==> (HintOk(s) ==> HintOk(Retire(s, d))) && (CurOk(s) ==> CurOk(Retire(s, d)))
  {
    var s' := Retire(s, d);
    if s.d.cur != d && Dispatched(s) {
      forall u | s'.Runnable(u) ensures s'.d.cur != 0 && s'.Prio(s'.d.cur) <= s'.Prio(u) { assert s.Runnable(u); }
    }
  }

  lemma RetireCases(s: State, d: nat)
    ensures var s' := Retire(s, d);
      && s'.a == s.a.(active := s'.a.active)
         && (s'.d == s.d.(st := s.d.st[d := Dead]) || s'.d == s.d.(st := s.d.st[d := Moribund]))
  {
    if At(s.a.detached, d, false) {
      assert Retire(s, d) == s.(a := s.a.(active := Without(s.a.active, d))).PutSt(d, Dead);
    } else {
      assert Retire(s, d) == s.PutSt(d, Moribund);
    }
  }

  lemma RetireActive(s: State, d: nat)
    requires ActiveOk(s) && s.Live(d)
    ensures ActiveOk(Retire(s, d))
  {
    WithoutMembers(s.a.active, d);
    if At(s.a.detached, d, false) {
      assert Retire(s, d) == s.(a := s.a.(active := Without(s.a.active, d))).PutSt(d, Dead);
    } else {
      assert Retire(s, d) == s.PutSt(d, Moribund);
    }
    forall t ensures t in Retire(s, d).a.active <==> Retire(s, d).St(t) != Dead {
      assert t in s.a.active <==> s.St(t) != Dead;
    }
  }

  lemma RetireWF(s: State, d: nat)
    requires WF(s, {d}) && s.Live(d)
    ensures WF(Retire(s, d), {d})
  {
    var s' := Retire(s, d);
    RetireCases(s, d);
    forall k, u ensures Located(s', {d}, k, u) { assert Located(s, {d}, k, u); }
    forall k ensures QueueOk(s', k) { assert QueueOk(s, k); }
    forall u ensures ThreadOk(s', {d}, u) { assert ThreadOk(s, {d}, u); }
    forall m ensures MutexOk(s', {d}, m) { assert MutexOk(s, {d}, m); }
  }

  // ----- OSExitThread

  lemma ExitGood(s: State, v: int)
    requires Good(s) && s.d.cur != 0 && s.a.resched <= 0
    ensures Good(Exit(s, v)) && Dispatched(Exit(s, v)) && Exit(s, v).a.resched == s.a.resched
  {
    var t := s.d.cur;
    var s0 := if At(s.a.detached, t, false) then s else s.(a := s.a.(val := s.a.val[t := v]));
    ValGood(s, t, v);
    HoldWF(s0, t, {});
    assert {} + {t} == {t};
    RetireDying(s0, t);
    LastRites(Retire(s0, t), t);
    var s1 := Wakeup(UnlockAll(Retire(s0, t), t), JoinQ(t));
    HintSane(s1);
    SelectSettles(s1.Hint(), false);
    assert Exit(s, v) == Select(s1.Hint(), false);
  }

  lemma HintSane(s: State)
    requires Sane(s)
    ensures Sane(s.Hint())
  {
    var s' := s.Hint();
    forall k, u ensures Located(s', {}, k, u) { assert Located(s, {}, k, u); }
    forall k ensures QueueOk(s', k) { assert QueueOk(s, k); }
    forall u ensures ThreadOk(s', {}, u) { assert ThreadOk(s, {}, u); }
    forall m ensures MutexOk(s', {}, m) { assert MutexOk(s, {}, m); }
    forall t ensures Calm(s, s', t) {}
    CalmSane(s, s', {});
  }

  lemma ValGood(s: State, t: nat, v: int)
    requires Good(s)
    ensures Good(s.(a := s.a.(val := s.a.val[t := v])))
  {
    var s' := s.(a := s.a.(val := s.a.val[t := v]));
    forall k, u ensures Located(s', {}, k, u) { assert Located(s, {}, k, u); }
    forall k ensures QueueOk(s', k) { assert QueueOk(s, k); }
    forall u ensures ThreadOk(s', {}, u) && WaitOk(s', u, {}) { assert ThreadOk(s, {}, u) && WaitOk(s, u, {}); }
    forall m ensures MutexOk(s', {}, m) { assert MutexOk(s, {}, m); }
    forall v ensures Inherits(s', v) {
      forall w ensures SameClaim(s, s', w, v) {}
      InheritsBy(s, s', v);
    }
    SameDispatch(s, s');
  }

  // ----- OSCancelThread

  /** What cancelling needs of the state the thread was evicted in. */
  ghost predicate Evicted(s: State, s1: State, t: nat) {
    && WF(s1, {t}) && s1.Live(t) && (s1.St(t) == Waiting ==> s1.Queue(t) == NoQ)
    && (forall v :: v != t ==> Inherits(s1, v)) && RestBut(s1, {}) && HintOk(s1)
    && s1.d.cur == s.d.cur && s1.d.st == s.d.st && s1.a.resched == s.a.resched && (t == s.d.cur ==> s1.d.hint)
  }

  lemma EvictReady(s: State, t: nat)
    requires Good(s) && s.St(t) == Ready
    ensures Evicted(s, Evict(s, t), t)
  {
    assert ThreadOk(s, {}, t);
    assert {} + {t} == {t};
    if 0 < s.Susp(t) {
      assert Evict(s, t) == s;
      HoldWF(s, t, {});
    } else {
      var s1 := UnsetRun(s, t);
      assert Evict(s, t) == s1;
      UnsetRunWF(s, t, {});
      forall v ensures Inherits(s1, v) {
        forall w ensures SameClaim(s, s1, w, v) {}
        InheritsBy(s, s1, v);
      }
      forall u ensures WaitOk(s1, u, {}) { assert WaitOk(s, u, {}); }
      SameDispatch(s, s1);
    }
  }

  lemma EvictRunning(s: State, t: nat)
    requires Good(s) && s.St(t) == Running
    ensures Evicted(s, Evict(s, t), t)
  {
    assert ThreadOk(s, {}, t);
    assert {} + {t} == {t};
    assert Evict(s, t) == s.Hint();
    HintSane(s);
    HoldWF(s.Hint(), t, {});
  }

  /** A waiter out of its queue, its queue field cleared. */
  function Unplaced(s: State, t: nat): State {
    Unpark(s, t).PutQueue(t, NoQ)
  }

  lemma UnplacedKeeps(s: State, t: nat)
    requires Good(s) && s.St(t) == Waiting
    ensures var s1 := Unplaced(s, t);
      && WF(s1, {t}) && (forall v :: v != Blocker(s, t) ==> Inherits(s1, v)) && RestBut(s1, {}) && HintOk(s1)
         && CurOk(s1)
    ensures s.Susp(t) > 0 ==> forall v :: Inherits(Unplaced(s, t), v)
  {
    var s0, s1 := Unpark(s, t), Unplaced(s, t);
    assert ThreadOk(s, {}, t) && ThreadOk(s, {}, 0);
    UnparkWF(s, t, {});
    assert {} + {t} == {t};
    assert ThreadOk(s0, {t}, t);
    AdjustWF(s0, s1, t, {t});
    forall v | v != Blocker(s, t) || s.Susp(t) > 0 ensures Inherits(s1, v) {
      if v != Blocker(s, t) && v != 0 {
        forall w ensures SameClaim(s, s1, w, v) {}
        InheritsBy(s, s1, v);
      } else if v != 0 {
        SunkWaiterIsNoLoss(s, s1, t, v);
      }
    }
    forall u ensures WaitOk(s1, u, {}) { assert WaitOk(s, u, {}); }
    SameDispatch(s, s1);
  }

  /** A suspended waiter stands at priority 32 and lends nobody anything. */
  lemma SunkWaiterIsNoLoss(s: State, s1: State, t: nat, v: nat)
    requires WF(s, {}) && Inherits(s, v) && s.St(t) == Waiting && s.Susp(t) > 0 && v != 0
    requires s1.a == s.a && s1.d.st == s.d.st && Blocker(s1, t) == 0
    requires forall w :: w != t ==> s1.Queue(w) == s.Queue(w)
    ensures Inherits(s1, v)
  {
    assert ThreadOk(s, {}, t) && ThreadOk(s, {}, v);
    if s1.Live(v) && s1.Susp(v) == 0 {
      var e := s.Prio(v);
      forall w | Blocker(s1, w) == v ensures e <= s1.Prio(w) { assert Blocker(s, w) == v; }
      if e != s.Base(v) {
        var w :| Blocker(s, w) == v && s.Prio(w) == e;
        assert w != t && Blocker(s1, w) == v;
      }
    }
  }

  lemma UnplacedReady(s: State, t: nat)
    requires Good(s) && s.St(t) == Waiting && s.Susp(t) == 0 && s.Mutex(t) != 0
    ensures s.Owner(s.Mutex(t)) == Blocker(s, t) && UpdateReady(Unplaced(s, t), Blocker(s, t), {t})
  {
    UnplacedKeeps(s, t);
    assert ThreadOk(s, {}, t) && WaitOk(s, t, {}) && MutexOk(s, {}, s.Mutex(t));
  }

  lemma EvictWaiting(s: State, t: nat)
    requires Good(s) && s.St(t) == Waiting && !Evict(s, t).d.fault
    ensures Evicted(s, Evict(s, t), t)
  {
    var s1 := Unplaced(s, t);
    assert ThreadOk(s, {}, t) && ThreadOk(s, {}, 0);
    UnplacedKeeps(s, t);
    if 0 < s.Susp(t) {
      assert Evict(s, t) == s1;
    } else if s.Mutex(t) == 0 {
      assert Evict(s, t) == s1;
      assert Blocker(s, t) == 0 && Inherits(s1, 0) by { assert ThreadOk(s1, {t}, 0); }
    } else {
      var u := Blocker(s, t);
      UnplacedReady(s, t);
      assert Evict(s, t) == Update(s1, u, {t});
      UpdateWF(s1, u, {t});
      UpdateRetunes(s1, u, {t});
      UpdateInherits(s1, u, {t});
      RetunedRest(s1, Update(s1, u, {t}));
      assert SameStand(s1, Update(s1, u, {t}), t);
    }
  }

  lemma CancelGood(s: State, t: nat)
    requires Good(s) && t != 0 && (t == s.d.cur ==> s.a.resched <= 0) && !Evict(s, t).d.fault
    ensures Good(Cancel(s, t)) && (s.a.resched <= 0 && Dispatched(s) ==> Dispatched(Cancel(s, t)))
    ensures Cancel(s, t).a.resched == s.a.resched
  {
    if !s.Live(t) {
      assert Cancel(s, t) == s;
    } else {
      if s.St(t) == Ready {
        EvictReady(s, t);
      } else if s.St(t) == Running {
        EvictRunning(s, t);
      } else {
        EvictWaiting(s, t);
      }
      var s1 := Evict(s, t);
      RetireDying(s1, t);
      var s2 := Retire(s1, t);
      LastRites(s2, t);
      RescheduleSettles(Wakeup(UnlockAll(s2, t), JoinQ(t)));
    }
  }
}
