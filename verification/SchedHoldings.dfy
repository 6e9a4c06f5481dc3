/** What the calls leave alone: the holders of mutexes, how often they are held, and the message queues. */
module SchedHoldings {
  import opened Lists
  import opened Sched
  import opened SchedInv
  import opened SchedChain
  import opened SchedCalls
  import opened SchedKeep
  import opened SchedGood
  import opened SchedMutex

  /** Mutexes and message queues are as they were. */
  ghost predicate SameHoldings(s: State, s': State) {
    s'.a.owner == s.a.owner && s'.a.count == s.a.count && s'.a.mq == s.a.mq
  }

  // ----- the chains change priorities and places in queues only

  lemma SetEffectiveHoldings(s: State, t: nat, p: int)
    ensures SetEffective(s, t, p).0.a == s.a.(prio := SetEffective(s, t, p).0.a.prio)
  {
    match s.St(t)
    case Ready =>
    case Waiting =>
    case Running =>
    case _ =>
  }

  lemma {:induction false} PromoteHoldings(s: State, t: nat, p: nat)
    ensures Promote(s, t, p).a == s.a.(prio := Promote(s, t, p).a.prio)
    decreases |Above(s.a.prio, p)|
  {
    if !(0 < s.Susp(t) || s.Prio(t) <= p) {
      SetEffectiveHoldings(s, t, p);
      var (s', u) := SetEffective(s, t, p);
      if u != 0 {
        SetEffectivePrio(s, t, p);
        AboveShrinks(s.a.prio, t, p);
        PromoteHoldings(s', u, p);
      }
    }
  }

  lemma {:induction false} UpdateHoldings(s: State, t: nat, X: set<nat>)
    requires UpdateReady(s, t, X)
    ensures Update(s, t, X).a == s.a.(prio := Update(s, t, X).a.prio)
    decreases Reach(s, t)
  {
    UpdateUnfold(s, t, X);
    if !(0 < s.Susp(t) || s.Prio(t) == Effective(s, t)) {
      SetEffectiveHoldings(s, t, Effective(s, t));
      var (s', u) := SetEffective(s, t, Effective(s, t));
      if u != 0 {
        assert t !in X;
        UpdateStep(s, t, X);
        UpdateHoldings(s', u, X);
      }
    }
  }

  lemma NotifyHoldings(s: State, t: nat, X: set<nat>)
    ensures SameHoldings(s, Notify(s, t, X)) && Notify(s, t, X).a.own == s.a.own
    ensures Notify(s, t, X).a == s.a.(prio := Notify(s, t, X).a.prio)
  {
    if s.Mutex(t) != 0 {
      var o := s.Owner(s.Mutex(t));
      if UpdateReady(s, o, X) { UpdateHoldings(s, o, X); }
    }
  }

  // ----- calls that leave all holdings alone

  lemma ResumeHoldings(s: State, t: nat)
    ensures SameHoldings(s, Resume(s, t))
  {
    var c := s.Susp(t) - 1;
    if c == 0 {
      var s0 := s.PutSusp(t, c);
      match s0.St(t)
      case Waiting =>
        var s1 := Unpark(s0, t);
        NotifyHoldings(Park(s1.PutPrio(t, Effective(s1, t)), t), t, {});
      case Ready =>
      case _ =>
    }
  }

  lemma SuspendHoldings(s: State, t: nat)
    ensures SameHoldings(s, Suspend(s, t))
  {
    var s0 := s.PutSusp(t, s.Susp(t) + 1);
    if s.Susp(t) == 0 {
      match s0.St(t)
      case Waiting =>
        var k := s0.Queue(t);
        var s1 := Unpark(s0, t).PutPrio(t, 32);
        NotifyHoldings(s1.PutQ(k, s1.Q(k) + [t]), t, {});
      case Ready =>
      case _ =>
    }
  }

  lemma EvictHoldings(s: State, t: nat)
    ensures SameHoldings(s, Evict(s, t)) && Evict(s, t).a.own == s.a.own
  {
    match s.St(t)
    case Ready =>
    case Running =>
    case _ =>
      var s1 := Unpark(s, t).PutQueue(t, NoQ);
      if !(0 < s.Susp(t)) { NotifyHoldings(s1, t, {t}); }
  }

  // ----- a dying thread lets go of everything

  ghost predicate LetGo(s: State, s': State, d: nat, m: nat) {
    && s'.Owner(m) == (if s.Owner(m) == d then 0 else s.Owner(m))
    && (s'.Count(m) == if s.Owner(m) == d then 0 else s.Count(m))
  }

  lemma {:induction false} UnlockAllHoldings(s: State, d: nat)
    requires OwnersOk(s.a.own, s.a.owner) && d != 0
    ensures forall m :: LetGo(s, UnlockAll(s, d), d, m)
    ensures UnlockAll(s, d).a.mq == s.a.mq
    decreases |s.Own(d)|
  {
    if s.Own(d) == [] {
      forall m ensures LetGo(s, s, d, m) { assert Owns(s.a.own, s.a.owner, d, m) && Owns(s.a.own, s.a.owner, d, 0); }
    } else {
      var n := s.Own(d)[0];
      assert n in s.Own(d) && Owns(s.a.own, s.a.owner, d, n);
      var s1 := Disown(s, d);
      WithoutHead(s.Own(d));
      OwnersDrop(s.a.own, s.a.owner, n);
      var s2 := Wakeup(s1, MutexQ(n));
      UnlockAllHoldings(s2, d);
      assert UnlockAll(s, d) == UnlockAll(s2, d);
      forall m ensures LetGo(s, UnlockAll(s, d), d, m) {
        assert LetGo(s2, UnlockAll(s2, d), d, m) && s2.a == s1.a;
      }
    }
  }

  lemma RetireHoldings(s: State, d: nat)
    ensures SameHoldings(s, Retire(s, d)) && Retire(s, d).a.own == s.a.own
  {
  }

  lemma ExitHoldings(s: State, v: int)
    requires OwnersOk(s.a.own, s.a.owner) && s.d.cur != 0
    ensures forall m :: LetGo(s, Exit(s, v), s.d.cur, m)
    ensures Exit(s, v).a.mq == s.a.mq
  {
    var t := s.d.cur;
    var s1 := if At(s.a.detached, t, false) then s else s.(a := s.a.(val := s.a.val[t := v]));
    RetireHoldings(s1, t);
    var s2 := Retire(s1, t);
    UnlockAllHoldings(s2, t);
    assert Exit(s, v).a == UnlockAll(s2, t).a;
    hide UnlockAll, Exit, Retire;
    forall m ensures LetGo(s, Exit(s, v), t, m) { assert LetGo(s2, UnlockAll(s2, t), t, m); }
  }

  lemma LetGoFrame(s: State, s1: State, s2: State, s': State, d: nat, m: nat)
    requires SameHoldings(s, s1) && LetGo(s1, s2, d, m) && s'.a == s2.a
    ensures LetGo(s, s', d, m)
  {
  }

  lemma CancelAttrs(s: State, t: nat)
    requires s.Live(t)
    ensures Cancel(s, t).a == UnlockAll(Retire(Evict(s, t), t), t).a
  {
    hide UnlockAll, Retire, Evict;
  }

  lemma CancelHoldings(s: State, t: nat)
    requires OwnersOk(s.a.own, s.a.owner) && t != 0 && s.Live(t)
    ensures forall m :: LetGo(s, Cancel(s, t), t, m)
    ensures Cancel(s, t).a.mq == s.a.mq
  {
    hide UnlockAll, Cancel, Retire, Evict, OwnersOk, LetGo;
    CancelAttrs(s, t);
    var s1 := Evict(s, t);
    var s2 := Retire(s1, t);
    EvictHoldings(s, t);
    RetireHoldings(s1, t);
    UnlockAllHoldings(s2, t);
    forall m ensures LetGo(s, Cancel(s, t), t, m) { LetGoFrame(s, s2, UnlockAll(s2, t), Cancel(s, t), t, m); }
  }

  lemma RetryVal(s: State)
    requires Good(s) && s.d.cur != 0 && s.Mutex(s.d.cur) != 0
    ensures Retry(s).a.val == s.a.val
  {
    ForgetMutex(s);
    LockVal(s.PutMutex(s.d.cur, 0), s.Mutex(s.d.cur));
  }

  lemma LockVal(s: State, n: nat)
    requires WF(s, {}) && s.d.cur != 0
    ensures Lock(s, n).a.val == s.a.val
  {
    var t := s.d.cur;
    if s.Owner(n) !in {0, t} && s.Prio(t) >= 0 {
      var s0 := s.PutMutex(t, n);
      PromoteHoldings(s0, s.Owner(n), s.Prio(t));
      assert Lock(s, n) == Sleep(Promote(s0, s.Owner(n), s.Prio(t)), MutexQ(n));
    }
  }
}
