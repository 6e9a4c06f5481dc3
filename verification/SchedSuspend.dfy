/** Suspending and resuming a thread, whatever it is doing, keeps the invariant. */
module SchedSuspend {
  import opened Lists
  import opened Sched
  import opened SchedInv
  import opened SchedChain
  import opened SchedCalls
  import opened SchedKeep
  import opened SchedGood

  /** The suspension count of a thread nobody runs or queues may change freely. */
  lemma RecountGood(s: State, t: nat, c: int)
    requires Good(s) && c >= 0 && (s.Susp(t) > 0 <==> c > 0)
    ensures Good(s.PutSusp(t, c)) && (Dispatched(s) ==> Dispatched(s.PutSusp(t, c)))
  {
    RecountWF(s, t, c);
    var s' := s.PutSusp(t, c);
    forall v ensures Inherits(s', v) {
      forall w ensures SameClaim(s, s', w, v) {}
      assert ThreadOk(s, {}, v);
      InheritsBy(s, s', v);
    }
    forall u ensures WaitOk(s', u, {}) { assert WaitOk(s, u, {}); }
    if Dispatched(s) {
      forall u | s'.Runnable(u) ensures s'.d.cur != 0 && s'.Prio(s'.d.cur) <= s'.Prio(u) { assert s.Runnable(u); }
    }
  }

  lemma RecountWF(s: State, t: nat, c: int)
    requires WF(s, {}) && c >= 0 && (s.Susp(t) > 0 <==> c > 0)
    ensures WF(s.PutSusp(t, c), {})
  {
    var s' := s.PutSusp(t, c);
    forall k, u ensures Located(s', {}, k, u) { assert Located(s, {}, k, u); }
    forall k ensures QueueOk(s', k) { assert QueueOk(s, k); }
    forall u ensures ThreadOk(s', {}, u) { assert ThreadOk(s, {}, u); }
    forall m ensures MutexOk(s', {}, m) { assert MutexOk(s, {}, m); }
  }

  // ----- suspending

  lemma TailIsSorted(s: State, t: nat)
    requires WF(s, {}) && s.St(t) == Waiting
    ensures var l := Without(s.Q(s.Queue(t)), t);
      && NoDup(l + [t]) && Sorted(l + [t], s.a.prio[t := 32]) && forall u :: u in l + [t] <==> u in l || u == t
  {
    var k, p := s.Queue(t), s.a.prio[t := 32];
    var q := s.Q(k);
    var l := Without(q, t);
    assert ThreadOk(s, {}, t) && QueueOk(s, k);
    WithoutMembers(q, t);
    SortedWithout(q, t, s.a.prio);
    SortedFrame(l, s.a.prio, p);
    SpliceMembers(l, |l|, t);
    assert l[..|l|] + [t] + l[|l|..] == l + [t];
    forall i | 0 <= i < |l| ensures At(p, l[i], 0) <= 32 {
      assert l[i] in l;
      assert Located(s, {}, k, l[i]) && ThreadOk(s, {}, l[i]);
    }
  }

  lemma HaltWaiting(s: State, t: nat)
    requires Good(s) && s.St(t) == Waiting && s.Susp(t) == 0
    ensures var s' := Halt(s.PutSusp(t, 1), t); Sane(s') && HintOk(s') && CurOk(s') && s'.a.resched == s.a.resched
  {
    var k := s.Queue(t);
    var r := Without(s.Q(k), t) + [t];
    var s2 := Unpark(s, t).PutSusp(t, 1).PutPrio(t, 32).PutQ(k, r);
    TailIsSorted(s, t);
    ReparkWF(s, s2, t, r);
    ReparkRest(s, s2, t, r);
    assert Halt(s.PutSusp(t, 1), t) == Notify(s2, t, {});
    NotifySane(s2, t);
  }

  lemma HaltReady(s: State, t: nat)
    requires Good(s) && s.St(t) == Ready && s.Susp(t) == 0
    ensures var s' := Halt(s.PutSusp(t, 1), t); Sane(s') && HintOk(s') && CurOk(s') && s'.a.resched == s.a.resched
  {
    var s1 := UnsetRun(s, t);
    var s2 := s1.PutSusp(t, 1);
    assert ThreadOk(s, {}, t);
    UnsetRunWF(s, t, {});
    assert {} + {t} == {t} && {t} - {t} == {};
    assert ThreadOk(s1, {t}, t);
    AdjustWF(s1, s2, t, {t});
    FreeWF(s2, t, {t});
    assert Halt(s.PutSusp(t, 1), t) == s2;
    HaltedSane(s, s2, t);
  }

  /** Taking `t` out of the competition harms nobody else's standing. */
  lemma HaltedSane(s: State, s': State, t: nat)
    requires Good(s) && WF(s', {}) && s.St(t) != Waiting && s'.Susp(t) == 1
    requires s'.a == s.a.(susp := s.a.susp[t := 1])
    requires s.Live(t) && s'.Live(t) && forall u :: u != t ==> s'.St(u) == s.St(u)
    requires s'.St(t) != Waiting && (s.d.hint ==> s'.d.hint) && s'.d.cur == s.d.cur
    requires s'.d.hint || s'.St(t) == s.St(t)
    requires forall w :: s.St(w) == Waiting ==> s'.Queue(w) == s.Queue(w)
    ensures Sane(s') && HintOk(s') && (s'.St(t) == s.St(t) ==> CurOk(s'))
  {
    forall v ensures Inherits(s', v) {
      forall w ensures SameClaim(s, s', w, v) {}
      InheritsBy(s, s', v);
    }
    forall u ensures WaitOk(s', u, {}) { assert WaitOk(s, u, {}); }
    forall u ensures u in s'.a.active <==> s'.St(u) != Dead { assert u in s.a.active <==> s.St(u) != Dead; }
    if !s'.d.hint {
      forall u | s'.Runnable(u) ensures s'.d.cur != 0 && s'.Prio(s'.d.cur) <= s'.Prio(u) { assert s.Runnable(u); }
    }
  }

  lemma HaltRunning(s: State, t: nat)
    requires Good(s) && s.St(t) == Running && s.Susp(t) == 0
    ensures var s' := Halt(s.PutSusp(t, 1), t); Sane(s') && HintOk(s') && s'.a.resched == s.a.resched
  {
    var s2 := s.PutSusp(t, 1).Hint().PutSt(t, Ready);
    assert Halt(s.PutSusp(t, 1), t) == s2;
    assert ThreadOk(s, {}, t);
    HoldWF(s, t, {});
    assert {} + {t} == {t} && {t} - {t} == {};
    assert ThreadOk(s, {t}, t);
    AdjustWF(s, s2, t, {t});
    FreeWF(s2, t, {t});
    HaltedSane(s, s2, t);
  }

  lemma SuspendGood(s: State, t: nat)
    requires Good(s) && t != 0 && (t == s.d.cur ==> s.a.resched <= 0)
    ensures Good(Suspend(s, t)) && (s.a.resched <= 0 && Dispatched(s) ==> Dispatched(Suspend(s, t)))
    ensures Suspend(s, t).a.resched == s.a.resched
  {
    assert ThreadOk(s, {}, t);
    if s.Susp(t) != 0 {
      assert Suspend(s, t) == s.PutSusp(t, s.Susp(t) + 1);
      RecountGood(s, t, s.Susp(t) + 1);
    } else {
      var s1 := Halt(s.PutSusp(t, 1), t);
      assert Suspend(s, t) == Reschedule(s1);
      if s.St(t) == Waiting {
        HaltWaiting(s, t);
      } else if s.St(t) == Ready {
        HaltReady(s, t);
      } else if s.St(t) == Running {
        HaltRunning(s, t);
      } else {
        assert s1 == s.PutSusp(t, 1);
        SuspendIdle(s, t, 1);
      }
      RescheduleSettles(s1);
    }
  }

  /** Counting suspensions of a thread that is not live has no effect. */
  lemma SuspendIdle(s: State, t: nat, c: nat)
    requires Good(s) && !s.Live(t)
    ensures Good(s.PutSusp(t, c))
  {
    var s' := s.PutSusp(t, c);
    forall k, u ensures Located(s', {}, k, u) { assert Located(s, {}, k, u); }
    forall k ensures QueueOk(s', k) { assert QueueOk(s, k); }
    forall u ensures ThreadOk(s', {}, u) { assert ThreadOk(s, {}, u); }
    forall m ensures MutexOk(s', {}, m) { assert MutexOk(s, {}, m); }
    forall v ensures Inherits(s', v) {
      forall w ensures SameClaim(s, s', w, v) {}
      InheritsBy(s, s', v);
    }
    forall u ensures WaitOk(s', u, {}) { assert WaitOk(s, u, {}); }
    if !s'.d.hint {
      forall u | s'.Runnable(u) ensures s'.d.cur != 0 && s'.Prio(s'.d.cur) <= s'.Prio(u) { assert s.Runnable(u); }
    }
  }

  // ----- resuming

  lemma RestartReadyWF(s: State, t: nat, e: int)
    requires WF(s, {}) && s.St(t) == Ready && s.Susp(t) > 0 && 0 <= e < 32
    ensures WF(SetRun(s.PutSusp(t, 0).PutPrio(t, e), t), {})
  {
    var s1 := s.PutSusp(t, 0).PutPrio(t, e);
    HoldWF(s, t, {});
    assert {} + {t} == {t} && {t} - {t} == {};
    assert ThreadOk(s, {t}, t);
    AdjustWF(s, s1, t, {t});
    SetRunWF(s1, t, {t});
  }

  lemma RestartedInherits(s: State, s': State, t: nat, e: int)
    requires Good(s) && s.St(t) == Ready && IsEff(s, t, e)
    requires s'.a == s.a.(susp := s.a.susp[t := 0], prio := s.a.prio[t := e]) && s'.d.st == s.d.st
    requires forall w :: w != t ==> s'.Queue(w) == s.Queue(w)
    ensures forall v :: Inherits(s', v)
  {
    assert ThreadOk(s, {}, 0);
    RefreshedInherits(s, s', t, e);
    forall v | v != t ensures Inherits(s', v) {
      forall w ensures v != 0 ==> SameClaim(s, s', w, v) {}
      if v != 0 { InheritsBy(s, s', v); }
    }
  }

  /** A thread that was out of the competition comes back with its effective priority. */
  lemma RestartedSane(s: State, s': State, t: nat, e: int)
    requires Good(s) && WF(s', {}) && s.St(t) == Ready && IsEff(s, t, e)
    requires s'.a == s.a.(susp := s.a.susp[t := 0], prio := s.a.prio[t := e])
    requires s'.d.st == s.d.st && s'.d.hint && s'.d.cur == s.d.cur
    requires forall w :: w != t ==> s'.Queue(w) == s.Queue(w)
    ensures Sane(s') && HintOk(s') && CurOk(s')
  {
    RestartedInherits(s, s', t, e);
    forall u ensures WaitOk(s', u, {}) { assert WaitOk(s, u, {}); }
  }

  lemma RestartReady(s: State, t: nat)
    requires Good(s) && s.St(t) == Ready && s.Susp(t) > 0
    ensures var s' := Restart(s.PutSusp(t, 0), t); Sane(s') && HintOk(s') && CurOk(s') && s'.a.resched == s.a.resched
  {
    var e := Effective(s, t);
    assert ThreadOk(s, {}, t) && ThreadOk(s, {}, 0);
    EffectiveIsMin(s, t, {});
    EffRange(s, t, e, {});
    RestartReadyWF(s, t, e);
    var s' := SetRun(s.PutSusp(t, 0).PutPrio(t, e), t);
    assert Restart(s.PutSusp(t, 0), t) == s';
    RestartedSane(s, s', t, e);
  }

  lemma PlaceIsSorted(s: State, t: nat, p: int)
    requires WF(s, {}) && s.St(t) == Waiting
    ensures var l, key := Without(s.Q(s.Queue(t)), t), s.a.prio[t := p];
      && NoDup(Insert(l, t, key)) && Sorted(Insert(l, t, key), key)
      && (forall u :: u in Insert(l, t, key) <==> u in l || u == t)
  {
    var k, key := s.Queue(t), s.a.prio[t := p];
    var l := Without(s.Q(k), t);
    assert ThreadOk(s, {}, t) && QueueOk(s, k);
    WithoutMembers(s.Q(k), t);
    SortedWithout(s.Q(k), t, s.a.prio);
    SortedFrame(l, s.a.prio, key);
    InsertMembers(l, t, key);
    InsertSorted(l, t, key);
  }

  lemma RestartWaiting(s: State, t: nat)
    requires Good(s) && s.St(t) == Waiting && s.Susp(t) > 0
    ensures var s' := Restart(s.PutSusp(t, 0), t); Sane(s') && HintOk(s') && CurOk(s') && s'.a.resched == s.a.resched
  {
    var k, s1 := s.Queue(t), Unpark(s, t);
    var e := Effective(s1, t);
    assert Effective(Unpark(s.PutSusp(t, 0), t), t) == e;
    assert ThreadOk(s, {}, t);
    UnparkWF(s, t, {});
    assert {} + {t} == {t};
    EffectiveIsMin(s1, t, {t});
    EffRange(s1, t, e, {t});
    var r := Insert(Without(s.Q(k), t), t, s.a.prio[t := e]);
    var s2 := s1.PutSusp(t, 0).PutPrio(t, e).PutQ(k, r);
    PlaceIsSorted(s, t, e);
    ReparkWF(s, s2, t, r);
    ReparkRest(s, s2, t, r);
    RefreshedInherits(s1, s2, t, e);
    assert Restart(s.PutSusp(t, 0), t) == Notify(s2, t, {});
    NotifySane(s2, t);
  }

  lemma ResumeGood(s: State, t: nat)
    requires Good(s) && t != 0
    ensures Good(Resume(s, t)) && (s.a.resched <= 0 && Dispatched(s) ==> Dispatched(Resume(s, t)))
    ensures Resume(s, t).a.resched == s.a.resched
  {
    assert ThreadOk(s, {}, t);
    var c := s.Susp(t) - 1;
    if c < 0 {
      assert Resume(s, t) == s.PutSusp(t, 0);
      RecountGood(s, t, 0);
    } else if c > 0 {
      assert Resume(s, t) == s.PutSusp(t, c);
      RecountGood(s, t, c);
    } else {
      var s1 := Restart(s.PutSusp(t, 0), t);
      assert Resume(s, t) == Reschedule(s1);
      if s.St(t) == Ready {
        RestartReady(s, t);
      } else if s.St(t) == Waiting {
        RestartWaiting(s, t);
      } else {
        assert s1 == s.PutSusp(t, 0);
        SuspendIdle(s, t, 0);
      }
      RescheduleSettles(s1);
    }
  }
}
