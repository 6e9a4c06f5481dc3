/** Facts about scheduler states that the steps inside a call rely on. */
module SchedMoves {
  import opened Lists
  import opened Links
  import opened Sched
  import opened SchedInv
  import opened SchedChain
  import opened SchedCalls
  import opened SchedKeep
  import opened SchedGood
  import opened SchedSuspend
  import opened SchedMutex
  import opened SchedMessage
  import opened SchedExit

  /** A runnable or waiting thread that is not in transit stands in the queue its field names. */
  lemma StandsInQueue(s: State, t: nat, X: set<nat>)
    requires WF(s, X)
    ensures (s.Runnable(t) || s.St(t) == Waiting) && t !in X ==> t in s.Q(s.Queue(t)) && s.Queue(t) != NoQ
    ensures !s.Runnable(t) && s.St(t) != Waiting ==> Free(s.d.q, t)
    ensures t in X ==> Free(s.d.q, t)
  {
    assert ThreadOk(s, X, t) && Located(s, X, s.Queue(t), t);
    forall k ensures t in s.Q(k) ==> Placed(s, X, t) { assert Located(s, X, k, t); }
    assert forall k :: At(s.d.q, k, []) == s.Q(k);
  }

  lemma PromoteMoves(s: State, t: nat, p: nat)
    requires WF(s, {}) && s.Live(t) && t != 0 && p < 32 && !(0 < s.Susp(t)) && s.Prio(t) > p
    ensures s.St(t) == Ready || s.St(t) == Waiting ==> t in s.Q(s.Queue(t)) && s.Queue(t) != NoQ
    ensures var (s', u) := SetEffective(s, t, p);
      && Promote(s, t, p) == (if u == 0 then s' else Promote(s', u, p))
      && (u != 0 ==> WF(s', {}) && s'.Live(u) && |Above(s'.a.prio, p)| < |Above(s.a.prio, p)|)
  {
    assert ThreadOk(s, {}, t);
    StandsInQueue(s, t, {});
    SetEffectiveWF(s, t, p, {});
    SetEffectiveRetunes(s, t, p, {});
    var (s', u) := SetEffective(s, t, p);
    AboveShrinks(s.a.prio, t, p);
    if u != 0 {
      assert MutexOk(s, {}, s.Queue(t).m);
      assert SameStand(s, s', u);
    }
  }

  lemma UnlockStep(s: State, d: nat)
    requires Dying(s, d) && s.Own(d) != [] && (CurOk(s) || s.a.resched <= 0)
    ensures var m, s1 := s.Own(d)[0], Disown(s, d);
      && WF(s1, {d}) && s1.Owner(m) == 0 && !s1.Live(d)
      && var s2 := Wakeup(s1, MutexQ(m));
      && Dying(s2, d) && (CurOk(s2) || s2.a.resched <= 0) && UnlockAll(s, d) == UnlockAll(s2, d)
      && |s2.Own(d)| < |s.Own(d)|
  {
    var m := s.Own(d)[0];
    DisownKeeps(s, d);
    DyingWakeup(Disown(s, d), d, MutexQ(m));
    assert {JoinQ(d)} - {MutexQ(m)} == {JoinQ(d)};
  }

  // ----- the two parts of a new thread's record

  function NewAttrs(a: Attrs, t: nat, p: int, detach: bool): Attrs {
    a.(susp := a.susp[t := 1], prio := a.prio[t := p], base := a.base[t := p], detached := a.detached[t := detach],
       val := a.val[t := VAL_UNSET], mutex := a.mutex[t := 0])
  }

  function Listed(a: Attrs, t: nat): Attrs {
    a.(own := a.own[t := []], active := a.active + [t])
  }

  lemma CreatedOf(s: State, t: nat, p: int, detach: bool)
    ensures Created(s, t, p, detach) == State(Listed(NewAttrs(s.a, t, p, detach), t),
      s.d.(st := s.d.st[t := Ready], queue := s.d.queue[t := NoQ], q := s.d.q[JoinQ(t) := []]))
  {
  }

  // ----- what the steps inside a call may rely on

  /** A waiter back in its queue at its effective priority. */
  function Reparked(s: State, t: nat): State {
    var s1 := Unpark(s, t);
    Park(s1.PutPrio(t, Effective(s1, t)), t)
  }

  ghost predicate MayRestart(s: State, t: nat) {
    && t != 0
    && (s.St(t) == Ready ==> Free(s.d.q, t))
    && (s.St(t) == Waiting ==> t in s.Q(s.Queue(t)) && !Notify(Reparked(s, t), t, {}).d.fault)
  }

  lemma RestartMoves(s: State, t: nat)
    requires Good(s) && t != 0 && s.Susp(t) == 1
    ensures var s0 := s.PutSusp(t, 0); MayRestart(s0, t) && WF(Restart(s0, t), {})
  {
    var s0 := s.PutSusp(t, 0);
    StandsInQueue(s, t, {});
    assert ThreadOk(s, {}, t);
    if s.St(t) == Ready {
      RestartReady(s, t);
    } else if s.St(t) == Waiting {
      RestartWaiting(s, t);
      assert Restart(s0, t) == Notify(Reparked(s0, t), t, {});
    } else {
      SuspendIdle(s, t, 0);
      assert Restart(s0, t) == s0;
    }
  }

  /** A suspended waiter at the tail of its queue, at priority 32. */
  function Sunk(s: State, t: nat): State {
    var k := s.Queue(t);
    var s1 := Unpark(s, t).PutPrio(t, 32);
    s1.PutQ(k, s1.Q(k) + [t])
  }

  ghost predicate MayHalt(s: State, t: nat) {
    && t != 0
    && (s.St(t) == Ready ==> t in s.Q(s.Queue(t)))
    && (s.St(t) == Waiting ==> t in s.Q(s.Queue(t)) && !Notify(Sunk(s, t), t, {}).d.fault)
  }

  lemma HaltMoves(s: State, t: nat)
    requires Good(s) && t != 0 && s.Susp(t) == 0
    ensures var s0 := s.PutSusp(t, 1); MayHalt(s0, t) && WF(Halt(s0, t), {})
  {
    var s0 := s.PutSusp(t, 1);
    StandsInQueue(s, t, {});
    assert ThreadOk(s, {}, t);
    if s.St(t) == Ready {
      HaltReady(s, t);
    } else if s.St(t) == Waiting {
      HaltWaiting(s, t);
      assert Halt(s0, t) == Notify(Sunk(s0, t), t, {});
    } else if s.St(t) == Running {
      HaltRunning(s, t);
    } else {
      SuspendIdle(s, t, 1);
      assert Halt(s0, t) == s0;
    }
  }

  ghost predicate MayEvict(s: State, t: nat) {
    && t != 0 && s.Live(t)
    && (s.Runnable(t) || s.St(t) == Waiting ==> t in s.Q(s.Queue(t)))
    && (s.St(t) == Waiting && !(0 < s.Susp(t)) ==> !Notify(Unplaced(s, t), t, {t}).d.fault)
  }

  lemma EvictMoves(s: State, t: nat)
    requires Good(s) && s.Live(t) && (t == s.d.cur ==> s.a.resched <= 0) && !Evict(s, t).d.fault
    ensures MayEvict(s, t)
    ensures var s1 := Evict(s, t); var s2 := Retire(s1, t);
      t in s1.a.active && Dying(s2, t) && (CurOk(s2) || s2.a.resched <= 0)
  {
    assert ThreadOk(s, {}, 0);
    StandsInQueue(s, t, {});
    if s.St(t) == Ready {
      EvictReady(s, t);
    } else if s.St(t) == Running {
      EvictRunning(s, t);
    } else {
      EvictWaiting(s, t);
    }
    RetireDying(Evict(s, t), t);
    if s.St(t) == Waiting && !(0 < s.Susp(t)) {
      assert Evict(s, t) == Notify(Unplaced(s, t), t, {t});
    }
  }

  /** A thread that died, released its mutexes and woke its joiners. */
  function Buried(s: State, t: nat): State {
    Wakeup(UnlockAll(Retire(s, t), t), JoinQ(t))
  }

  /** Releasing a dead thread's mutexes and waking its joiners. */
  lemma BuryMoves(s: State, d: nat)
    requires Dying(s, d) && (CurOk(s) || s.a.resched <= 0)
    ensures var s1 := UnlockAll(s, d);
      && WF(s1, {d}) && !s1.Live(d)
      && var s2 := Wakeup(s1, JoinQ(d)); WF(s2, {d}) && !s2.Live(d) && WF(s2.Hint(), {d})
  {
    hide WF, UnlockAll, Wakeup;
    UnlockAllDying(s, d);
    assert {JoinQ(d), JoinQ(d)} == {JoinQ(d)};
    DyingWakeup(UnlockAll(s, d), d, JoinQ(d));
    HintWF(Wakeup(UnlockAll(s, d), JoinQ(d)), d);
  }

  lemma HintWF(s: State, d: nat)
    requires WF(s, {d})
    ensures WF(s.Hint(), {d})
  {
    assert ThreadOk(s, {d}, d);
    AdjustWF(s, s.Hint(), d, {d});
  }

  function LeaveValue(s: State, v: int): State {
    if At(s.a.detached, s.d.cur, false) then s else s.(a := s.a.(val := s.a.val[s.d.cur := v]))
  }

  lemma ExitMoves(s: State, v: int)
    requires Good(s) && s.d.cur != 0 && s.a.resched <= 0
    ensures var t, s0 := s.d.cur, LeaveValue(s, v);
      && t in s0.a.active && Dying(Retire(s0, t), t) && Retire(s0, t).a.resched <= 0
      && Exit(s, v) == Select(Buried(s0, t).Hint(), false)
  {
    var t, s0 := s.d.cur, LeaveValue(s, v);
    ValGood(s, t, v);
    HoldWF(s0, t, {});
    assert {} + {t} == {t};
    RetireDying(s0, t);
  }

  lemma LockMoves(s: State, m: nat)
    requires Good(s) && s.d.cur != 0 && m != 0 && s.a.resched <= 0 && s.Owner(m) != 0 && s.Owner(m) != s.d.cur
    ensures var s0 := s.PutMutex(s.d.cur, m);
      var p := s.Prio(s.d.cur);
      && 0 <= p < 32 && WF(s0, {}) && s0.Live(s.Owner(m))
      && var s1 := Promote(s0, s.Owner(m), p); WF(s1, {}) && MaySleep(s1, MutexQ(m)) && s1.d.cur == s.d.cur
  {
    var t, o := s.d.cur, s.Owner(m);
    ClaimMutex(s, m);
    PromoteOwner(s.PutMutex(t, m), o, s.Prio(t));
  }

  /** A thread that owned a mutex keeps no more priority than the mutexes it still owns give it. */
  function Lowered(s: State, t: nat): State {
    if s.Prio(t) < s.Base(t) then s.PutPrio(t, Effective(s, t)) else s
  }

  lemma UnlockMoves(s: State, m: nat)
    requires Good(s) && s.d.cur != 0 && s.Owner(m) == s.d.cur
    ensures m in s.Own(s.d.cur) && WF(Release(s, m), {}) && Release(s, m).Owner(m) == 0
  {
    ReleaseSane(s, m);
  }

  lemma SendMoves(s: State, k: nat, msg: int, block: bool, front: bool)
    requires Good(s) && (block && s.Mq(k).used >= s.Mq(k).count ==> MayBlock(s))
    ensures var u := s.Mq(k);
      && WF(s, {})
      && (u.count <= u.used && block ==> MaySleep(s, SendQ(k)))
      && (u.used < u.count ==> u.count > 0 && WF(PutMq(s, k, if front then Prepend(u, msg) else Append(u, msg)), {}))
  {
    var u := s.Mq(k);
    assert MqOk(u);
    if u.used < u.count {
      AppendContents(u, msg);
      PrependContents(u, msg);
      MqSane(s, k, if front then Prepend(u, msg) else Append(u, msg), RecvQ(k));
    }
  }

  lemma ReceiveMoves(s: State, k: nat, block: bool)
    requires Good(s) && (block && s.Mq(k).used == 0 ==> MayBlock(s))
    ensures var u := s.Mq(k);
      && WF(s, {})
      && (u.used == 0 && block ==> MaySleep(s, RecvQ(k)))
      && (u.used != 0 ==> u.count > 0 && WF(PutMq(s, k, Drop(u)), {}))
  {
    var u := s.Mq(k);
    assert MqOk(u);
    if u.used != 0 {
      DropContents(u);
      MqSane(s, k, Drop(u), SendQ(k));
    }
  }
}
