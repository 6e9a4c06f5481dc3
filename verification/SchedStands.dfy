/** Where each thread stands: not in use, ended, parked in some queue, or up. Exactly how each call moves each
    thread. */
module SchedStands {
  import opened Lists
  import opened Sched
  import opened SchedInv
  import opened SchedChain
  import B = ReadyBits
  import C = SchedCalls
  import opened SchedKeep
  import opened SchedGood
  import opened SchedMutex
  import opened SchedMessage
  import opened SchedExit
  import opened SchedHoldings
  import opened SchedMoves
  import opened SchedRecords
  import opened SchedRetry
  import opened SchedRing
  import opened SchedRuns

  /** A slot not in use, a thread that has ended and is kept for a joiner, one parked in a queue, and one that is
      neither: it runs, is ready, or would be ready were it not suspended. */
  datatype Stand = Gone | Ended | Parked(k: Qid) | Up

  function StandOf(s: State, t: nat): Stand {
    match s.St(t)
    case Dead => Gone
    case Moribund => Ended
    case Waiting => Parked(s.Queue(t))
    case _ => Up
  }

  ghost predicate SameStands(s: State, s': State) {
    forall t :: StandOf(s', t) == StandOf(s, t)
  }

  /** The threads parked in queue `k` are up, and nobody else has moved. */
  ghost predicate Woken(s: State, k: Qid, s': State) {
    forall t :: StandOf(s', t) == if StandOf(s, t) == Parked(k) then Up else StandOf(s, t)
  }

  lemma SameTrans(a: State, b: State, c: State)
    requires SameStands(a, b) && SameStands(b, c)
    ensures SameStands(a, c)
  {
    hide StandOf;
  }

  lemma WokenThen(a: State, k: Qid, b: State, c: State)
    requires Woken(a, k, b) && SameStands(b, c)
    ensures Woken(a, k, c)
  {
    hide StandOf;
  }

  lemma AfterSame(a: State, b: State, k: Qid, c: State)
    requires SameStands(a, b) && Woken(b, k, c)
    ensures Woken(a, k, c)
  {
    hide StandOf;
  }

  lemma SamePlaces(s: State, s': State)
    requires s'.d.st == s.d.st && forall t :: s.St(t) == Waiting ==> s'.Queue(t) == s.Queue(t)
    ensures SameStands(s, s')
  {
  }

  // ----- chains of owners

  lemma RetunedStands(s: State, s': State)
    requires Retuned(s, s')
    ensures SameStands(s, s')
  {
    forall t | s.St(t) == Waiting ensures s'.Queue(t) == s.Queue(t) { assert SameStand(s, s', t); }
  }

  lemma NotifyStands(s: State, t: nat, X: set<nat>)
    requires !C.Notify(s, t, X).d.fault
    ensures SameStands(s, C.Notify(s, t, X))
  {
    if s.Mutex(t) != 0 {
      UpdateRetunes(s, s.Owner(s.Mutex(t)), X);
      RetunedStands(s, C.Notify(s, t, X));
    }
  }

  // ----- dispatching

  lemma HeadIsUp(s: State, p: int, X: set<nat>)
    requires WF(s, X) && s.Q(RunQ(p)) != []
    ensures StandOf(s, s.Q(RunQ(p))[0]) == Up
  {
    var n := s.Q(RunQ(p))[0];
    assert n in s.Q(RunQ(p)) && Located(s, X, RunQ(p), n) && ThreadOk(s, X, n);
  }

  lemma DispatchStands(s: State, X: set<nat>)
    requires WF(s, X)
    ensures SameStands(s, C.Dispatch(s))
  {
    var p := B.Cntlzw(s.d.bits);
    if s.d.bits != {} && s.Q(RunQ(p)) != [] {
      HeadIsUp(s, p, X);
      assert C.Dispatch(s) == C.Take(s, p);
      TakeStands(s, p);
    }
  }

  lemma TakeStands(s: State, p: int)
    requires s.Q(RunQ(p)) != [] && StandOf(s, s.Q(RunQ(p))[0]) == Up
    ensures SameStands(s, C.Take(s, p))
  {
  }

  lemma PreemptStands(s: State)
    requires s.St(s.d.cur) == Running
    ensures SameStands(s, C.Preempt(s))
  {
  }

  /** Choosing who runs moves nobody. */
  lemma SelectStands(s: State, yielding: bool, X: set<nat>)
    requires WF(s, X) && forall t :: t in X ==> !s.Live(t)
    ensures SameStands(s, C.Select(s, yielding))
  {
    var c := s.d.cur;
    hide C.Dispatch, C.Preempt, WF;
    if 0 < s.a.resched {
    } else if c == 0 || s.St(c) != Running {
      IdleWF(s, X);
      DispatchStands(s.PutCur(0), X);
    } else if !yielding && s.Prio(c) <= B.Cntlzw(s.d.bits) {
    } else {
      PreemptWF(s, X);
      PreemptStands(s);
      DispatchStands(C.Preempt(s), X);
      SameTrans(s, C.Preempt(s), C.Dispatch(C.Preempt(s)));
    }
  }

  lemma RescheduleStands(s: State, X: set<nat>)
    requires WF(s, X) && forall t :: t in X ==> !s.Live(t)
    ensures SameStands(s, C.Reschedule(s))
  {
    hide C.Select, WF;
    SelectStands(s, false, X);
  }

  // ----- waking

  lemma HeadIsParked(s: State, k: Qid, X: set<nat>)
    requires WF(s, X) && !k.RunQ? && s.Q(k) != []
    ensures StandOf(s, s.Q(k)[0]) == Parked(k)
  {
    var n := s.Q(k)[0];
    assert n in s.Q(k) && Located(s, X, k, n) && ThreadOk(s, X, n);
  }

  lemma NobodyParked(s: State, k: Qid, X: set<nat>)
    requires WF(s, X) && s.Q(k) == [] && forall t :: t in X ==> !s.Live(t)
    ensures forall t :: StandOf(s, t) != Parked(k)
  {
    forall t ensures StandOf(s, t) != Parked(k) { assert Located(s, X, k, t); }
  }

  lemma WakeOneStands(s: State, k: Qid)
    requires s.Q(k) != [] && StandOf(s, s.Q(k)[0]) == Parked(k)
    ensures forall t :: StandOf(C.WakeOne(s, k), t) == if t == s.Q(k)[0] then Up else StandOf(s, t)
  {
  }

  lemma {:induction false} WakeAllStands(s: State, k: Qid, X: set<nat>)
    requires WF(s, X) && !k.RunQ? && (k.MutexQ? ==> s.Owner(k.m) == 0) && forall t :: t in X ==> !s.Live(t)
    ensures Woken(s, k, C.WakeAll(s, k))
    decreases |s.Q(k)|
  {
    if s.Q(k) == [] {
      NobodyParked(s, k, X);
    } else {
      var s1 := C.WakeOne(s, k);
      HeadIsParked(s, k, X);
      WakeOneStands(s, k);
      WakeOneWF(s, k, X);
      WakeOneCalm(s, k, X);
      assert C.WakeAll(s, k) == C.WakeAll(s1, k);
      assert forall t :: t in X ==> Calm(s, s1, t);
      hide C.WakeOne, C.WakeAll, WF, StandOf;
      WakeAllStands(s1, k, X);
    }
  }

  lemma WakeupStands(s: State, k: Qid, X: set<nat>)
    requires WF(s, X) && !k.RunQ? && (k.MutexQ? ==> s.Owner(k.m) == 0) && forall t :: t in X ==> !s.Live(t)
    ensures Woken(s, k, C.Wakeup(s, k))
  {
    var s1 := C.WakeAll(s, k);
    hide C.WakeAll, C.Reschedule, WF, StandOf, Woken, SameStands;
    WakeAllWF(s, k, X);
    WakeAllStands(s, k, X);
    assert forall t :: t in X ==> Calm(s, s1, t);
    RescheduleStands(s1, X);
    WokenThen(s, k, s1, C.Wakeup(s, k));
  }

  // ----- parking

  /** Thread `t` is parked in queue `k`, and nobody else has moved. */
  ghost predicate Parks(s: State, t: nat, k: Qid, s': State) {
    forall u :: StandOf(s', u) == if u == t then Parked(k) else StandOf(s, u)
  }

  lemma SleepStands(s: State, k: Qid)
    requires WF(s, {}) && MaySleep(s, k)
    ensures Parks(s, s.d.cur, k, C.Sleep(s, k))
  {
    var t := s.d.cur;
    var x := Park(s.PutSt(t, Waiting).PutQueue(t, k), t).Hint();
    SleepWF(s, k);
    assert Parks(s, t, k, x);
    hide C.Reschedule, WF, StandOf, Park, MaySleep;
    RescheduleStands(x, {});
  }

  lemma ParksFrom(s: State, s1: State, t: nat, k: Qid, s': State)
    requires SameStands(s, s1) && Parks(s1, t, k, s')
    ensures Parks(s, t, k, s')
  {
    hide StandOf;
  }

  lemma ContendedStands(s: State, m: nat)
    requires Good(s) && s.d.cur != 0 && m != 0 && s.a.resched <= 0 && s.Owner(m) !in {0, s.d.cur}
    ensures Parks(s, s.d.cur, MutexQ(m), C.Lock(s, m))
  {
    var t, p := s.d.cur, s.Prio(s.d.cur);
    var s0 := s.PutMutex(t, m);
    hide Good, WF, Inherits, Promoted, MaySleep, Promote, C.Sleep, StandOf, Parks;
    LockMoves(s, m);
    ClaimMutex(s, m);
    PromoteOwner(s0, s.Owner(m), p);
    var s1 := Promote(s0, s.Owner(m), p);
    SamePlaces(s, s0);
    RetunedStands(s0, s1);
    SameTrans(s, s0, s1);
    SleepStands(s1, MutexQ(m));
    ParksFrom(s, s1, t, MutexQ(m), C.Sleep(s1, MutexQ(m)));
  }

  lemma LockStands(s: State, m: nat)
    requires Good(s) && s.d.cur != 0 && m != 0 && (s.Owner(m) in {0, s.d.cur} || s.a.resched <= 0)
    ensures if s.Owner(m) in {0, s.d.cur} then SameStands(s, C.Lock(s, m))
            else Parks(s, s.d.cur, MutexQ(m), C.Lock(s, m))
  {
    if s.Owner(m) in {0, s.d.cur} { SamePlaces(s, C.Lock(s, m)); } else { ContendedStands(s, m); }
  }

  lemma RetryStands(s: State)
    requires Good(s) && Pends(s) && s.a.resched <= 0
    ensures var m := s.Mutex(s.d.cur);
      if s.Owner(m) in {0, s.d.cur} then SameStands(s, C.PendingLock(s))
      else Parks(s, s.d.cur, MutexQ(m), C.PendingLock(s))
  {
    var t, m := s.d.cur, s.Mutex(s.d.cur);
    var s0 := s.PutMutex(t, 0);
    hide Good, C.Lock, C.Retry, C.Restore, C.PendingLock, StandOf, SameStands, Parks;
    PendingCases(s);
    RetryIsLock(s);
    ForgetMutex(s);
    LockStands(s0, m);
    SamePlaces(s, s0);
    RestoreStands(C.Retry(s), t, m);
    if s.Owner(m) in {0, t} {
      SameTrans(s, s0, C.Retry(s));
      SameTrans(s, C.Retry(s), C.PendingLock(s));
    } else {
      ParksFrom(s, s0, t, MutexQ(m), C.Retry(s));
    }
  }

  lemma RestoreStands(s: State, t: nat, m: nat)
    ensures SameStands(s, C.Restore(s, t, m)) && SameStands(s, s)
  {
  }

  lemma UnlockStands(s: State, m: nat)
    requires Good(s) && s.d.cur != 0
    ensures if s.Owner(m) == s.d.cur && s.Count(m) == 1 then Woken(s, MutexQ(m), C.Unlock(s, m))
            else SameStands(s, C.Unlock(s, m))
  {
    if s.Owner(m) == s.d.cur && s.Count(m) == 1 {
      var s1 := C.Release(s, m);
      ReleaseSane(s, m);
      UnlockMoves(s, m);
      assert C.Unlock(s, m) == C.Wakeup(s1, MutexQ(m));
      hide Good, WF, C.Release, C.Wakeup, C.Unlock;
      SamePlaces(s, s1);
      WakeupStands(s1, MutexQ(m), {});
      AfterSame(s, s1, MutexQ(m), C.Wakeup(s1, MutexQ(m)));
    }
  }

  // ----- messages

  lemma SendStands(s: State, k: nat, msg: int, block: bool, front: bool)
    requires Good(s) && (block && s.Mq(k).used >= s.Mq(k).count ==> MayBlock(s))
    ensures var s' := C.Send(s, k, msg, block, front).0;
      if s.Mq(k).used < s.Mq(k).count then Woken(s, RecvQ(k), s')
      else if block then Parks(s, s.d.cur, SendQ(k), s') else s' == s
  {
    var u := s.Mq(k);
    hide Good, WF, MaySleep, C.Append, C.Prepend, C.Sleep, C.Wakeup;
    SendMoves(s, k, msg, block, front);
    if u.used < u.count {
      var s1 := C.PutMq(s, k, if front then C.Prepend(u, msg) else C.Append(u, msg));
      SamePlaces(s, s1);
      WakeupStands(s1, RecvQ(k), {});
      AfterSame(s, s1, RecvQ(k), C.Wakeup(s1, RecvQ(k)));
    } else if block {
      SleepStands(s, SendQ(k));
    }
  }

  lemma ReceiveStands(s: State, k: nat, block: bool)
    requires Good(s) && (block && s.Mq(k).used == 0 ==> MayBlock(s))
    ensures var s' := C.Receive(s, k, block).0;
      if s.Mq(k).used != 0 then Woken(s, SendQ(k), s')
      else if block then Parks(s, s.d.cur, RecvQ(k), s') else s' == s
  {
    var u := s.Mq(k);
    hide Good, WF, MaySleep, C.Drop, C.Sleep, C.Wakeup;
    ReceiveMoves(s, k, block);
    if u.used != 0 {
      var s1 := C.PutMq(s, k, C.Drop(u));
      SamePlaces(s, s1);
      WakeupStands(s1, SendQ(k), {});
      AfterSame(s, s1, SendQ(k), C.Wakeup(s1, SendQ(k)));
    } else if block {
      SleepStands(s, RecvQ(k));
    }
  }

  // ----- suspending and resuming

  lemma HaltStands(s: State, t: nat)
    requires !C.Halt(s, t).d.fault
    ensures SameStands(s, C.Halt(s, t))
  {
    if s.St(t) == Waiting {
      var k := s.Queue(t);
      var s1 := Unpark(s, t).PutPrio(t, 32);
      var s2 := s1.PutQ(k, s1.Q(k) + [t]);
      assert C.Halt(s, t) == C.Notify(s2, t, {});
      SamePlaces(s, s2);
      NotifyStands(s2, t, {});
      SameTrans(s, s2, C.Halt(s, t));
    }
  }

  lemma RestartStands(s: State, t: nat)
    requires !C.Restart(s, t).d.fault
    ensures SameStands(s, C.Restart(s, t))
  {
    if s.St(t) == Waiting {
      var s1 := Unpark(s, t);
      var s2 := Park(s1.PutPrio(t, Effective(s1, t)), t);
      assert C.Restart(s, t) == C.Notify(s2, t, {});
      SamePlaces(s, s2);
      NotifyStands(s2, t, {});
      SameTrans(s, s2, C.Restart(s, t));
    }
  }

  lemma WFClean(s: State, X: set<nat>)
    requires WF(s, X)
    ensures !s.d.fault
  {
  }

  lemma SuspendStands(s: State, t: nat)
    requires Good(s) && t != 0
    ensures SameStands(s, C.Suspend(s, t))
  {
    var s0 := s.PutSusp(t, s.Susp(t) + 1);
    SamePlaces(s, s0);
    SuspSound(s, t);
    if s.Susp(t) == 0 {
      var s1 := C.Halt(s0, t);
      hide Good, WF, C.Halt, C.Reschedule, MayHalt, SameStands;
      HaltMoves(s, t);
      WFClean(s1, {});
      HaltStands(s0, t);
      RescheduleStands(s1, {});
      SameTrans(s, s0, s1);
      SameTrans(s, s1, C.Reschedule(s1));
    }
  }

  lemma ResumeStands(s: State, t: nat)
    requires Good(s) && t != 0
    ensures SameStands(s, C.Resume(s, t))
  {
    if s.Susp(t) == 1 {
      var s0 := s.PutSusp(t, 0);
      SamePlaces(s, s0);
      var s1 := C.Restart(s0, t);
      hide Good, WF, C.Restart, C.Reschedule, MayRestart, SameStands;
      RestartMoves(s, t);
      WFClean(s1, {});
      RestartStands(s0, t);
      RescheduleStands(s1, {});
      SameTrans(s, s0, s1);
      SameTrans(s, s1, C.Reschedule(s1));
    } else {
      SamePlaces(s, C.Resume(s, t));
    }
  }

  // ----- ending

  /** The threads parked on mutexes that `d` owns are up, and nobody else has moved. */
  ghost predicate Freed(s: State, d: nat, s': State) {
    forall t :: StandOf(s', t) == FreedFrom(s, d, StandOf(s, t))
  }

  function FreedFrom(s: State, d: nat, x: Stand): Stand {
    if x.Parked? && x.k.MutexQ? && x.k.m != 0 && s.Owner(x.k.m) == d then Up else x
  }

  lemma FreedStep(s: State, s2: State, d: nat, m: nat, s': State)
    requires Woken(s, MutexQ(m), s2) && Freed(s2, d, s') && m != 0 && s.Owner(m) == d && d != 0
    requires s2.a.owner == s.a.owner[m := 0]
    ensures Freed(s, d, s')
  {
    forall t ensures StandOf(s', t) == FreedFrom(s, d, StandOf(s, t)) {
      assert StandOf(s2, t) == if StandOf(s, t) == Parked(MutexQ(m)) then Up else StandOf(s, t);
    }
  }

  lemma FirstOwned(s: State, d: nat)
    requires Dying(s, d) && s.Own(d) != []
    ensures s.Own(d)[0] != 0 && s.Owner(s.Own(d)[0]) == d
  {
    var m := s.Own(d)[0];
    assert m in s.Own(d) && Owns(s.a.own, s.a.owner, d, m);
  }

  lemma OwnsNone(s: State, d: nat)
    requires Dying(s, d) && s.Own(d) == []
    ensures Freed(s, d, s)
  {
    OwnsNothing(s, d);
  }

  lemma UnlockUnfolds(s: State, d: nat)
    ensures s.Own(d) == [] ==> C.UnlockAll(s, d) == s
    ensures s.Own(d) != [] ==>
      C.UnlockAll(s, d) == C.UnlockAll(C.Wakeup(C.Disown(s, d), MutexQ(s.Own(d)[0])), d)
    ensures s.Own(d) != [] ==> C.Disown(s, d).d == s.d && C.Disown(s, d).a.owner == s.a.owner[s.Own(d)[0] := 0]
  {
    hide C.Wakeup;
  }

  lemma {:induction false} UnlockAllStands(s: State, d: nat)
    requires Dying(s, d) && (CurOk(s) || s.a.resched <= 0)
    ensures Freed(s, d, C.UnlockAll(s, d))
    decreases |s.Own(d)|
  {
    hide Dying, CurOk, WF, StandOf, Woken, Freed, SameStands, C.UnlockAll, C.Wakeup, C.Disown;
    UnlockUnfolds(s, d);
    if s.Own(d) == [] {
      OwnsNone(s, d);
    } else {
      var m, s1 := s.Own(d)[0], C.Disown(s, d);
      FirstOwned(s, d);
      DyingIs(s, d);
      UnlockStep(s, d);
      SamePlaces(s, s1);
      WakeupStands(s1, MutexQ(m), {d});
      var s2 := C.Wakeup(s1, MutexQ(m));
      AfterSame(s, s1, MutexQ(m), s2);
      UnlockAllStands(s2, d);
      FreedStep(s, s2, d, m, C.UnlockAll(s, d));
    }
  }

  lemma DyingIs(s: State, d: nat)
    requires Dying(s, d)
    ensures d != 0 && !s.Live(d)
  {
  }

  /** The slot of a thread that ends is free at once if it is detached, and kept for a joiner otherwise. */
  function EndOf(s: State, d: nat): Stand {
    if At(s.a.detached, d, false) then Gone else Ended
  }

  /** Thread `d` has ended: those parked on its mutexes or to join it are up, and nobody else has moved. */
  function EndedAfter(s: State, d: nat, t: nat): Stand {
    if t == d then EndOf(s, d)
    else if StandOf(s, t) == Parked(JoinQ(d)) then Up
    else FreedFrom(s, d, StandOf(s, t))
  }

  ghost predicate Ends(s: State, d: nat, s': State) {
    forall t :: StandOf(s', t) == EndedAfter(s, d, t)
  }

  lemma RetireStands(s: State, d: nat)
    ensures forall t :: StandOf(C.Retire(s, d), t) == if t == d then EndOf(s, d) else StandOf(s, t)
    ensures C.Retire(s, d).a.owner == s.a.owner
  {
  }

  /** From a dying thread's retirement to the waking of its joiners. */
  lemma BuriedStands(s: State, d: nat)
    requires var x := C.Retire(s, d); Dying(x, d) && (CurOk(x) || x.a.resched <= 0)
    ensures Ends(s, d, C.Wakeup(C.UnlockAll(C.Retire(s, d), d), JoinQ(d)))
  {
    var x := C.Retire(s, d);
    var y := C.UnlockAll(x, d);
    hide Dying, CurOk, WF, C.UnlockAll, C.Wakeup, C.Retire;
    RetireStands(s, d);
    BuryMoves(x, d);
    UnlockAllStands(x, d);
    WakeupStands(y, JoinQ(d), {d});
    var z := C.Wakeup(y, JoinQ(d));
    forall t ensures StandOf(z, t) == EndedAfter(s, d, t) {
      assert StandOf(z, t) == if StandOf(y, t) == Parked(JoinQ(d)) then Up else StandOf(y, t);
    }
  }

  lemma EndsThen(s: State, d: nat, x: State, y: State)
    requires Ends(s, d, x) && SameStands(x, y)
    ensures Ends(s, d, y)
  {
    hide StandOf, EndedAfter;
  }

  lemma EndsFrom(s: State, s1: State, d: nat, s': State)
    requires Ends(s1, d, s') && (forall t :: t != d ==> StandOf(s1, t) == StandOf(s, t))
    requires s1.a.owner == s.a.owner && s1.a.detached == s.a.detached
    ensures Ends(s, d, s')
  {
    hide StandOf;
    forall t ensures StandOf(s', t) == EndedAfter(s, d, t) { assert StandOf(s', t) == EndedAfter(s1, d, t); }
  }

  lemma ExitStands(s: State, v: int)
    requires Good(s) && s.d.cur != 0 && s.a.resched <= 0
    ensures Ends(s, s.d.cur, C.Exit(s, v))
  {
    var t, s0 := s.d.cur, LeaveValue(s, v);
    var x := C.Wakeup(C.UnlockAll(C.Retire(s0, t), t), JoinQ(t));
    hide *;
    LeftStands(s, v);
    ExitMoves(s, v);
    BuriedIs(s0, t);
    BuryMoves(C.Retire(s0, t), t);
    BuriedStands(s0, t);
    EndsFrom(s, s0, t, x);
    HintStands(x);
    SelectStands(x.Hint(), false, {t});
    EndsThen(s, t, x, x.Hint());
    EndsThen(s, t, x.Hint(), C.Select(x.Hint(), false));
  }

  lemma HintStands(s: State)
    ensures SameStands(s, s.Hint()) && forall t :: s.Hint().Live(t) == s.Live(t)
  {
  }

  lemma BuriedIs(s: State, t: nat)
    ensures Buried(s, t) == C.Wakeup(C.UnlockAll(C.Retire(s, t), t), JoinQ(t))
  {
    hide C.Wakeup, C.UnlockAll, C.Retire;
  }

  lemma LeftStands(s: State, v: int)
    ensures var s0 := LeaveValue(s, v);
      && s0.d == s.d && s0.a.owner == s.a.owner && s0.a.detached == s.a.detached
      && forall t :: StandOf(s0, t) == StandOf(s, t)
  {
  }

  lemma EvictStands(s: State, t: nat)
    requires !C.Evict(s, t).d.fault && s.Live(t)
    ensures forall u :: u != t ==> StandOf(C.Evict(s, t), u) == StandOf(s, u)
  {
    if s.St(t) == Waiting {
      var s1 := Unpark(s, t).PutQueue(t, NoQ);
      assert C.Evict(s, t) == if 0 < s.Susp(t) then s1 else C.Notify(s1, t, {t});
      assert forall u :: u != t ==> StandOf(s1, u) == StandOf(s, u);
      hide C.Evict, C.Notify, StandOf, Unpark;
      if !(0 < s.Susp(t)) { NotifyStands(s1, t, {t}); }
    }
  }

  lemma CancelIs(s: State, t: nat)
    requires s.Live(t)
    ensures C.Cancel(s, t) == C.Reschedule(C.Wakeup(C.UnlockAll(C.Retire(C.Evict(s, t), t), t), JoinQ(t)))
  {
    hide C.Reschedule, C.Wakeup, C.UnlockAll, C.Retire, C.Evict;
  }

  lemma CancelStands(s: State, t: nat)
    requires Good(s) && t != 0 && (t == s.d.cur ==> s.a.resched <= 0) && s.Live(t) && !C.Evict(s, t).d.fault
    ensures Ends(s, t, C.Cancel(s, t))
  {
    var s1 := C.Evict(s, t);
    var x := C.Wakeup(C.UnlockAll(C.Retire(s1, t), t), JoinQ(t));
    CancelIs(s, t);
    hide *;
    EvictMoves(s, t);
    BuryMoves(C.Retire(s1, t), t);
    BuriedStands(s1, t);
    EvictStands(s, t);
    EvictHoldings(s, t);
    EvictKept(s, t);
    EndsFrom(s, s1, t, x);
    RescheduleStands(x, {t});
    EndsThen(s, t, x, C.Reschedule(x));
  }

  // ----- every call

  /** Where thread `t` stands after a call: a creation brings it up, a sleep, a contended lock and a blocked message
      call park the caller, and waking a queue, the last unlock, a message sent or received and the end of a thread
      bring up those that waited for just that. No other call moves anybody. */
  function StandAfter(s: State, c: Call, t: nat): Stand {
    var x := StandOf(s, t);
    match c
    case Create(u, p, _) => if t == u && 0 <= p <= 31 then Up else x
    case Sleep(k) => if t == s.d.cur then Parked(k) else x
    case Wakeup(k) => if x == Parked(k) then Up else x
    case Exit(_) => EndedAfter(s, s.d.cur, t)
    case Cancel(u) => if s.Live(u) then EndedAfter(s, u, t) else x
    case Lock(m) => if t == s.d.cur && s.Owner(m) !in {0, t} then Parked(MutexQ(m)) else x
    case Retry => if t == s.d.cur && s.Owner(s.Mutex(t)) !in {0, t} then Parked(MutexQ(s.Mutex(t))) else x
    case Unlock(m) => if s.Owner(m) == s.d.cur && s.Count(m) == 1 && x == Parked(MutexQ(m)) then Up else x
    case Send(i, _, block, _) =>
      if s.Mq(i).used < s.Mq(i).count then (if x == Parked(RecvQ(i)) then Up else x)
      else if block && t == s.d.cur then Parked(SendQ(i)) else x
    case Receive(i, block) =>
      if s.Mq(i).used != 0 then (if x == Parked(SendQ(i)) then Up else x)
      else if block && t == s.d.cur then Parked(RecvQ(i)) else x
    case _ => x
  }

  ghost predicate Moves(s: State, c: Call, s': State) {
    forall t :: StandOf(s', t) == StandAfter(s, c, t)
  }

  lemma CreateMoves(s: State, u: nat, p: int, detach: bool)
    ensures Moves(s, Create(u, p, detach), C.Create(s, u, p, detach))
  {
  }

  lemma SleepAllowed(s: State, k: Qid)
    requires Good(s) && Enabled(s, Sleep(k))
    ensures WF(s, {}) && MaySleep(s, k)
  {
  }

  lemma SleepMoves(s: State, k: Qid)
    requires Good(s) && Enabled(s, Sleep(k))
    ensures Moves(s, Sleep(k), C.Sleep(s, k))
  {
    SleepAllowed(s, k);
    hide Good, WF, MaySleep, StandOf, C.Sleep, Enabled;
    SleepStands(s, k);
  }

  lemma WakeupMoves(s: State, k: Qid)
    requires Good(s) && Enabled(s, Wakeup(k))
    ensures Moves(s, Wakeup(k), Step(s, Wakeup(k)))
  {
    hide WF, StandOf, C.Wakeup;
    WakeupStands(s, k, {});
  }

  lemma EndMoves(s: State, c: Call)
    requires Good(s) && Enabled(s, c) && (c.Exit? || c.Cancel?)
    ensures Moves(s, c, Step(s, c))
  {
    if c.Exit? {
      hide Good, StandOf, EndedAfter, C.Exit;
      ExitStands(s, c.v);
    } else if s.Live(c.t) {
      CancelSound(s, c.t);
      hide Good, StandOf, EndedAfter, C.Cancel;
      CancelStands(s, c.t);
    }
  }

  lemma CancelSound(s: State, t: nat)
    requires Good(s) && Enabled(s, Cancel(t)) && s.Live(t)
    ensures !C.Evict(s, t).d.fault
  {
    CancelFaultsIff(s, t);
    hide C.Evict;
  }

  lemma AskMoves(s: State, c: Call)
    requires Good(s) && Enabled(s, c) && (c.Lock? || c.TryLock? || c.Unlock? || c.Retry?)
    ensures Moves(s, c, Step(s, c))
  {
    RunnerAsks(s, c);
    hide Good, StandOf, C.Lock, C.Unlock, C.PendingLock;
    match c
    case Lock(m) => LockStands(s, m);
    case TryLock(m) => SamePlaces(s, Step(s, c));
    case Unlock(m) => UnlockStands(s, m);
    case Retry => RetryStands(s);
  }

  lemma MessageMoves(s: State, c: Call)
    requires Good(s) && Enabled(s, c) && (c.Send? || c.Receive?)
    ensures Moves(s, c, Step(s, c))
  {
    hide Good, StandOf, C.Send, C.Receive;
    match c
    case Send(i, msg, block, front) => SendStands(s, i, msg, block, front);
    case Receive(i, block) => ReceiveStands(s, i, block);
  }

  lemma StillMoves(s: State, c: Call)
    requires Good(s) && Enabled(s, c)
    requires c.Resume? || c.Suspend? || c.Yield? || c.InitQueue? || c.DisableScheduler? || c.EnableScheduler?
    ensures Moves(s, c, Step(s, c))
  {
    match c
    case Resume(t) => hide Good, StandOf, C.Resume; ResumeStands(s, t);
    case Suspend(t) => hide Good, StandOf, C.Suspend; SuspendStands(s, t);
    case Yield => hide WF, StandOf, C.Select; SelectStands(s, true, {});
    case InitQueue(_, _) => SamePlaces(s, Step(s, c));
    case DisableScheduler => SamePlaces(s, Step(s, c));
    case EnableScheduler => SamePlaces(s, Step(s, c));
  }

  /** Exactly how each call moves each thread. */
  lemma StepStands(s: State, c: Call, t: nat)
    requires Good(s) && Enabled(s, c)
    ensures StandOf(Step(s, c), t) == StandAfter(s, c, t)
  {
    hide Good, Enabled, Step, StandOf, StandAfter;
    match c
    case Create(u, p, detach) => StepIsCreate(s, u, p, detach); CreateMoves(s, u, p, detach);
    case Sleep(k) => StepIsSleep(s, k); SleepMoves(s, k);
    case Wakeup(k) => WakeupMoves(s, k);
    case Exit(_) => EndMoves(s, c);
    case Cancel(_) => EndMoves(s, c);
    case Lock(_) => AskMoves(s, c);
    case TryLock(_) => AskMoves(s, c);
    case Unlock(_) => AskMoves(s, c);
    case Retry => AskMoves(s, c);
    case Send(_, _, _, _) => MessageMoves(s, c);
    case Receive(_, _) => MessageMoves(s, c);
    case _ => StillMoves(s, c);
  }

  lemma StepIsCreate(s: State, u: nat, p: int, detach: bool)
    ensures Step(s, Create(u, p, detach)) == C.Create(s, u, p, detach)
  {
  }

  lemma StepIsSleep(s: State, k: Qid)
    ensures Step(s, Sleep(k)) == C.Sleep(s, k)
  {
  }

  // ----- what the places come to

  /** The queues hold exactly the threads parked in them; the run queues those that are up and not suspended, by
      priority, but for the one that runs. */
  lemma PlacesAre(s: State, k: Qid, t: nat)
    requires Good(s)
    ensures !k.RunQ? ==> (t in s.Q(k) <==> StandOf(s, t) == Parked(k))
    ensures k.RunQ? ==>
      (t in s.Q(k) <==> StandOf(s, t) == Up && s.Susp(t) == 0 && s.St(t) != Running && s.Prio(t) == k.p)
    ensures NoDup(s.Q(k))
  {
    assert Located(s, {}, k, t) && ThreadOk(s, {}, t) && QueueOk(s, k);
  }
}
