/** `ProcessPendingLocks`: threads woken from a mutex queue try again, one after the other. */
module SchedRetry {
  import opened Lists
  import opened Sched
  import opened SchedInv
  import opened SchedChain
  import opened SchedCalls
  import opened SchedKeep
  import opened SchedGood
  import opened SchedMutex
  import opened SchedExit
  import B = ReadyBits

  /** The running thread was woken from a mutex queue and has not tried again yet. */
  predicate Pends(s: State) {
    s.d.cur != 0 && s.Mutex(s.d.cur) != 0 && s.St(s.d.cur) == Running
  }

  // ----- one pass

  lemma RunnerFacts(s: State, m: nat)
    requires Good(s) && s.d.cur != 0 && s.St(s.d.cur) == Running
    ensures 0 <= s.Prio(s.d.cur) < 32 && (s.Owner(m) == 0 ==> s.Count(m) == 0)
  {
    assert ThreadOk(s, {}, s.d.cur) && MutexOk(s, {}, m);
  }

  lemma RetryAtOnce(s: State)
    requires s.d.cur != 0 && s.Owner(s.Mutex(s.d.cur)) in {0, s.d.cur}
    ensures var t, m := s.d.cur, s.Mutex(s.d.cur);
      && (s.Owner(m) == 0 ==> Retry(s) == Acquire(s.PutMutex(t, 0), m) && Retry(s).Count(m) == s.Count(m) + 1)
      && (s.Owner(m) == t ==> Retry(s) == s.PutMutex(t, 0).PutCount(m, s.Count(m) + 1))
  {
  }

  lemma RetryContended(s: State)
    requires Good(s) && Pends(s) && s.Owner(s.Mutex(s.d.cur)) !in {0, s.d.cur} && 0 <= s.Prio(s.d.cur)
    ensures var t, m := s.d.cur, s.Mutex(s.d.cur);
      var s1 := s.PutMutex(t, 0).PutMutex(t, m);
      && Retry(s) == Sleep(Promote(s1, s.Owner(m), s.Prio(t)), MutexQ(m))
      && WF(s1, {}) && (forall v :: Inherits(s1, v)) && s1.Live(s.Owner(m))
  {
    hide Good, WF, Inherits, Sleep, Promote;
    ForgetMutex(s);
    ClaimMutex(s.PutMutex(s.d.cur, 0), s.Mutex(s.d.cur));
  }

  /** What a retry comes to, by the state of the mutex. */
  lemma RetryCases(s: State)
    requires Good(s) && Pends(s) && s.a.resched <= 0
    ensures 0 <= s.Prio(s.d.cur) < 32
    ensures var t, m := s.d.cur, s.Mutex(s.d.cur);
      var s0 := s.PutMutex(t, 0);
      && (s.Owner(m) == 0 ==> Retry(s) == Acquire(s0, m) && Retry(s).Count(m) == 1)
      && (s.Owner(m) == t ==> Retry(s) == s0.PutCount(m, s.Count(m) + 1))
      && (s.Owner(m) !in {0, t} ==>
          Retry(s) == Sleep(Promote(s0.PutMutex(t, m), s.Owner(m), s.Prio(t)), MutexQ(m))
            && Retry(s).a.owner == s.a.owner)
  {
    var t, m := s.d.cur, s.Mutex(s.d.cur);
    hide Good, WF, Inherits, Promoted, Retry, Acquire, Sleep, Promote;
    RunnerFacts(s, m);
    if s.Owner(m) in {0, t} {
      RetryAtOnce(s);
    } else {
      RetryContended(s);
      PromoteOwner(s.PutMutex(t, 0).PutMutex(t, m), s.Owner(m), s.Prio(t));
      SleepMutexes(Promote(s.PutMutex(t, 0).PutMutex(t, m), s.Owner(m), s.Prio(t)), MutexQ(m));
    }
  }

  lemma PendingCases(s: State)
    requires Good(s) && Pends(s) && s.a.resched <= 0
    ensures var t, m := s.d.cur, s.Mutex(s.d.cur);
      PendingLock(s) == (if At(s.a.val, t, 0) > 0 && (s.Owner(m) == 0 || (s.Owner(m) == t && s.Count(m) == 0))
                         then Restore(Retry(s), t, m) else Retry(s))
  {
    var m := s.Mutex(s.d.cur);
    hide Retry, Sleep, Promote, Good, Acquire, Restore;
    RetryCases(s);
    if s.Owner(m) == 0 {
      AcquireHolds(s.PutMutex(s.d.cur, 0), m);
    } else if s.Owner(m) == s.d.cur {
      assert Retry(s).Count(m) == s.Count(m) + 1 && Retry(s).Owner(m) == s.d.cur;
    } else {
      assert Retry(s).Owner(m) == s.Owner(m);
    }
  }

  lemma AcquireHolds(s: State, m: nat)
    ensures Acquire(s, m).Owner(m) == s.d.cur && Acquire(s, m).Count(m) == s.Count(m) + 1
    ensures Acquire(s, m).d == s.d && Acquire(s, m).a.mutex == s.a.mutex
  {
  }

  /** A pass keeps the invariant, whatever count it restores. */
  lemma PendingGood(s: State)
    requires Good(s) && s.d.cur != 0 && s.Mutex(s.d.cur) != 0 && s.a.resched <= 0
    ensures Good(PendingLock(s)) && (Dispatched(s) ==> Dispatched(PendingLock(s)))
    ensures PendingLock(s).a.resched == s.a.resched
  {
    var t, m, s1 := s.d.cur, s.Mutex(s.d.cur), Retry(s);
    RetryGood(s);
    if PendingLock(s) != s1 {
      assert PendingLock(s) == Restore(s1, t, m) && s1.Owner(m) == t;
      var c := ToInt32(At(s1.a.val, t, 0));
      var s2 := s1.PutCount(m, c);
      RelockGood(s1, m, c);
      ValGood(s2, t, VAL_UNSET);
      assert Restore(s1, t, m) == s2.(a := s2.a.(val := s2.a.val[t := VAL_UNSET]));
      hide *;
      SameDispatch(s2, Restore(s1, t, m));
    }
  }

  // ----- all of them

  /** The threads with a retry ahead of them. */
  ghost function Pending(s: State): set<nat> {
    set t | t in s.a.mutex && s.Mutex(t) != 0 && s.St(t) != Waiting
  }

  lemma ParkedStays(s: State, k: Qid, u: nat)
    requires WF(s, {}) && MaySleep(s, k) && (s.St(u) == Waiting || u == s.d.cur)
    ensures Sleep(s, k).St(u) == Waiting
  {
    var t := s.d.cur;
    var x := Park(s.PutSt(t, Waiting).PutQueue(t, k), t).Hint();
    SleepWF(s, k);
    assert Sleep(s, k) == Dispatch(x.PutCur(0));
    MostUrgent(x, {});
    var p := B.Cntlzw(x.d.bits);
    if x.d.bits != {} {
      var n := x.Q(RunQ(p))[0];
      assert n in x.Q(RunQ(p)) && Located(x, {}, RunQ(p), n) && ThreadOk(x, {}, n);
      assert x.St(u) == Waiting && n != u;
    }
  }

  lemma LessPending(s: State, s': State, t: nat, x: nat)
    requires s'.a.mutex == s.a.mutex[t := x] && (x == 0 || s'.St(t) == Waiting)
    requires forall u :: u != t && s.St(u) == Waiting ==> s'.St(u) == Waiting
    ensures Pending(s') <= Pending(s) - {t}
  {
  }

  /** Each pass leaves one thread less to retry. */
  lemma PendingShrinks(s: State)
    requires Good(s) && Pends(s) && s.a.resched <= 0
    ensures Pending(PendingLock(s)) <= Pending(s) - {s.d.cur} && s.d.cur in Pending(s)
    ensures |Pending(PendingLock(s))| < |Pending(s)|
  {
    var t, m := s.d.cur, s.Mutex(s.d.cur);
    if s.Owner(m) in {0, t} { OwnShrinks(s); } else { ContendedShrinks(s); }
    assert t in Pending(s);
    hide *;
    Smaller(Pending(PendingLock(s)), Pending(s), t);
  }

  lemma OwnShrinks(s: State)
    requires Good(s) && Pends(s) && s.a.resched <= 0 && s.Owner(s.Mutex(s.d.cur)) in {0, s.d.cur}
    ensures Pending(PendingLock(s)) <= Pending(s) - {s.d.cur}
  {
    var t, s0 := s.d.cur, s.PutMutex(s.d.cur, 0);
    RetryCases(s);
    PendingCases(s);
    AcquireHolds(s0, s.Mutex(t));
    hide PendingLock, Retry, Good, Acquire, Pending;
    LessPending(s, PendingLock(s), t, 0);
  }

  lemma Smaller(a: set<nat>, b: set<nat>, t: nat)
    requires a <= b - {t} && t in b
    ensures |a| < |b|
  {
    SubsetSize(a, b - {t});
  }

  lemma {:induction false} SubsetSize(a: set<nat>, b: set<nat>)
    requires a <= b
    ensures |a| <= |b|
    decreases |a|
  {
    if a != {} {
      var x :| x in a;
      SubsetSize(a - {x}, b - {x});
    }
  }

  /** The state in which a retry that finds its mutex held goes to sleep again. */
  function Reclaimed(s: State, p: nat): State {
    var t, m := s.d.cur, s.Mutex(s.d.cur);
    Promote(s.PutMutex(t, 0).PutMutex(t, m), s.Owner(m), p)
  }

  lemma ReclaimedFields(s: State)
    requires Good(s) && Pends(s) && s.a.resched <= 0 && s.Owner(s.Mutex(s.d.cur)) !in {0, s.d.cur}
    ensures 0 <= s.Prio(s.d.cur) < 32
    ensures var t, m, s2 := s.d.cur, s.Mutex(s.d.cur), Reclaimed(s, s.Prio(s.d.cur));
      && PendingLock(s) == Sleep(s2, MutexQ(m))
      && WF(s2, {}) && s2.d.st == s.d.st && s2.a.mutex == s.a.mutex[t := 0][t := m] && s2.d.cur == t
      && s2.a.owner == s.a.owner && s2.a.count == s.a.count && s2.a.resched == s.a.resched
  {
    var t, m := s.d.cur, s.Mutex(s.d.cur);
    var s1 := s.PutMutex(t, 0).PutMutex(t, m);
    hide Good, WF, Inherits, Promoted, PendingLock, Restore, Retry, Sleep, Promote;
    RunnerFacts(s, m);
    RetryCases(s);
    PendingCases(s);
    RetryContended(s);
    PromoteOwner(s1, s.Owner(m), s.Prio(t));
  }

  lemma ContendedShrinks(s: State)
    requires Good(s) && Pends(s) && s.a.resched <= 0 && s.Owner(s.Mutex(s.d.cur)) !in {0, s.d.cur}
    ensures Pending(PendingLock(s)) <= Pending(s) - {s.d.cur}
  {
    var t, m := s.d.cur, s.Mutex(s.d.cur);
    hide Good, WF, PendingLock, Sleep, Reclaimed, Pending;
    ReclaimedFields(s);
    var s2 := Reclaimed(s, s.Prio(t));
    assert s.a.mutex[t := 0][t := m] == s.a.mutex[t := m];
    assert MaySleep(s2, MutexQ(m));
    forall u | s2.St(u) == Waiting || u == t ensures PendingLock(s).St(u) == Waiting { ParkedStays(s2, MutexQ(m), u); }
    SleepMutexes(s2, MutexQ(m));
    hide MaySleep;
    LessPending(s, PendingLock(s), t, m);
  }

  lemma SleepMutexes(s: State, k: Qid)
    ensures Sleep(s, k).a == s.a
  {
  }

  ghost function Process(s: State): (r: State)
    requires Good(s) && s.a.resched <= 0
    decreases |Pending(s)|
  {
    if !Pends(s) then s else
    PendingGood(s);
    PendingShrinks(s);
    Process(PendingLock(s))
  }

  /** The loop ends, and then nobody who runs has a retry ahead. */
  lemma {:induction false} ProcessSettles(s: State)
    requires Good(s) && s.a.resched <= 0
    ensures var s' := Process(s);
      Good(s') && (s'.d.cur != 0 ==> s'.Mutex(s'.d.cur) == 0) && (Dispatched(s) ==> Dispatched(s'))
        && s'.a.resched == s.a.resched
    decreases |Pending(s)|
  {
    if Pends(s) {
      PendingGood(s);
      PendingShrinks(s);
      ProcessSettles(PendingLock(s));
    }
  }
}
