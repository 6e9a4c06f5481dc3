/** Where the code breaks what one would expect of it, exactly when, and on runs from start-up. */
module SchedHazards {
  import opened Lists
  import opened Sched
  import opened SchedInv
  import opened SchedChain
  import opened SchedCalls
  import opened SchedKeep
  import opened SchedGood
  import opened SchedMutex
  import opened SchedRing
  import opened SchedRetry
  import S = SchedScenes
  import R = SchedRuns

  // ----- cancelling a thread that stands in a ring of waiters

  /** After the run into the deadlock, cancelling thread 2 follows the ring back to thread 2, which by then stands in no
      queue. */
  lemma CancelCorrupts()
    ensures R.Allowed(Init(1), S.TO_DEADLOCK)
    ensures var s := R.Run(Init(1), S.TO_DEADLOCK); Good(s) && s.Live(2) && Ring(s, 2, [2, 1]) && Evict(s, 2).d.fault
  {
    S.GetsDeadlocked();
    R.InitGood(1);
    R.RunGood(Init(1), S.TO_DEADLOCK);
    var s := R.Run(Init(1), S.TO_DEADLOCK);
    assert S.Looks(s, S.DEADLOCK);
    hide R.Run, R.Allowed, S.TO_DEADLOCK;
    RingStands(s);
    CancelFaultsIff(s, 2);
  }

  /** Threads 1 and 2 keep each other at the priority that thread 3 once lent them. */
  lemma RingStands(s: State)
    requires Good(s) && S.Looks(s, S.DEADLOCK)
    ensures s.Live(2) && Ring(s, 2, [2, 1])
  {
    var c := [2 as nat, 1];
    assert Blocker(s, 2) == 1 && Blocker(s, 1) == 2;
    BlockersOf(s);
    assert Hollow(s, 1, 2) && Hollow(s, 2, 1);
    assert Link(s, c, 1);
  }

  /** Apart from them only thread 3 waits for a mutex of theirs, suspended and at priority 32. */
  lemma BlockersOf(s: State)
    requires Good(s) && S.Looks(s, S.DEADLOCK)
    ensures forall w :: Blocker(s, w) == 1 ==> w == 2 || w == 3
    ensures forall w :: Blocker(s, w) == 2 ==> w == 1
  {
    forall w ensures (Blocker(s, w) == 1 ==> w == 2 || w == 3) && (Blocker(s, w) == 2 ==> w == 1) {
      if Blocker(s, w) in {1, 2} {
        var m := s.Queue(w).m;
        assert Located(s, {}, MutexQ(m), w);
        assert Owns(s.a.own, s.a.owner, 1, m) && Owns(s.a.own, s.a.owner, 2, m);
        assert m in s.Own(1) || m in s.Own(2);
      }
    }
  }

  // ----- the saved count of a woken waiter

  ghost predicate AllCounted(owner: map<nat, nat>, count: map<nat, int>) {
    forall m :: At(owner, m, 0) != 0 ==> At(count, m, 0) > 0
  }

  /** Every mutex that is held is held a positive number of times. */
  ghost predicate Counted(s: State) {
    AllCounted(s.a.owner, s.a.count)
  }

  lemma CountsPut(owner: map<nat, nat>, count: map<nat, int>, m: nat, t: nat, c: int)
    requires AllCounted(owner, count)
    ensures t != 0 ==> (AllCounted(owner[m := t], count[m := c]) <==> c > 0)
    ensures At(owner, m, 0) != 0 ==> (AllCounted(owner, count[m := c]) <==> c > 0)
  {
    var owner', count' := owner[m := t], count[m := c];
    assert At(owner', m, 0) == t && At(count', m, 0) == c;
    assert forall n :: n != m ==> At(owner', n, 0) == At(owner, n, 0) && At(count', n, 0) == At(count, n, 0);
  }

  lemma AcquireFields(s: State, m: nat)
    ensures Acquire(s, m).a.owner == s.a.owner[m := s.d.cur] && Acquire(s, m).a.count == s.a.count[m := s.Count(m) + 1]
    ensures Acquire(s, m).a.val == s.a.val
  {
  }

  lemma FreeCounts(s: State)
    requires Good(s) && Pends(s) && s.a.resched <= 0 && s.Owner(s.Mutex(s.d.cur)) == 0
    ensures var t, m, a := s.d.cur, s.Mutex(s.d.cur), PendingLock(s).a;
      var saved := At(s.a.val, t, 0);
      a.owner == s.a.owner[m := t] && a.count == s.a.count[m := if saved > 0 then ToInt32(saved) else 1]
  {
    var t, m := s.d.cur, s.Mutex(s.d.cur);
    var c := ToInt32(At(s.a.val, t, 0));
    hide Good, Acquire, PendingLock, Retry, Promote, Sleep;
    RunnerFacts(s, m);
    RetryCases(s);
    PendingCases(s);
    AcquireFields(s.PutMutex(t, 0), m);
    assert s.a.count[m := 1][m := c] == s.a.count[m := c];
  }

  lemma HeldCounts(s: State)
    requires Good(s) && Pends(s) && s.a.resched <= 0
    requires s.Owner(s.Mutex(s.d.cur)) == s.d.cur && s.Count(s.Mutex(s.d.cur)) != 0
    ensures var m, a := s.Mutex(s.d.cur), PendingLock(s).a;
      a.owner == s.a.owner && a.count == s.a.count[m := s.Count(m) + 1]
  {
    hide Good, Acquire, PendingLock, Retry, Restore, Promote, Sleep;
    RetryCases(s);
    PendingCases(s);
  }

  lemma ContendedCounts(s: State)
    requires Good(s) && Pends(s) && s.a.resched <= 0 && s.Owner(s.Mutex(s.d.cur)) !in {0, s.d.cur}
    ensures PendingLock(s).a.owner == s.a.owner && PendingLock(s).a.count == s.a.count
  {
    hide *;
    ReclaimedFields(s);
    SleepMutexes(Reclaimed(s, s.Prio(s.d.cur)), MutexQ(s.Mutex(s.d.cur)));
  }

  /** What a pass does to the holders and the counts of mutexes. */
  lemma PendingFields(s: State)
    requires Good(s) && Pends(s) && s.a.resched <= 0
    ensures var t, m, a := s.d.cur, s.Mutex(s.d.cur), PendingLock(s).a;
      var saved := At(s.a.val, t, 0);
      && (s.Owner(m) == 0 ==>
          a.owner == s.a.owner[m := t] && a.count == s.a.count[m := if saved > 0 then ToInt32(saved) else 1])
      && (s.Owner(m) == t && s.Count(m) != 0 ==> a.owner == s.a.owner && a.count == s.a.count[m := s.Count(m) + 1])
      && (s.Owner(m) !in {0, t} ==> a.owner == s.a.owner && a.count == s.a.count)
  {
    var t, m := s.d.cur, s.Mutex(s.d.cur);
    hide Good, PendingLock;
    if s.Owner(m) == 0 { FreeCounts(s); }
    if s.Owner(m) == t && s.Count(m) != 0 { HeldCounts(s); }
    if s.Owner(m) !in {0, t} { ContendedCounts(s); }
  }

  /** One pass of `ProcessPendingLocks` keeps counts positive exactly when it restores none, or a positive one. */
  lemma PendingLockCountsIff(s: State)
    requires Good(s) && Counted(s) && Pends(s) && s.a.resched <= 0
    requires 0 <= At(s.a.val, s.d.cur, 0) < 0x1_0000_0000
    ensures Counted(PendingLock(s)) <==> s.Owner(s.Mutex(s.d.cur)) != 0 || At(s.a.val, s.d.cur, 0) < 0x8000_0000
  {
    var t, m := s.d.cur, s.Mutex(s.d.cur);
    var saved := At(s.a.val, t, 0);
    PendingFields(s);
    assert s.Owner(m) == t ==> s.Count(m) > 0;
    CountsPut(s.a.owner, s.a.count, m, t, if saved > 0 then ToInt32(saved) else 1);
    CountsPut(s.a.owner, s.a.count, m, t, s.Count(m) + 1);
    hide PendingLock, Good, AllCounted;
  }

  /** Locks and unlocks of one mutex by one thread; a lock is true. */
  function Net(ops: seq<bool>): int {
    if ops == [] then 0 else Net(ops[..|ops| - 1]) + (if ops[|ops| - 1] then 1 else -1)
  }

  function After(s: State, m: nat, ops: seq<bool>): State {
    if ops == [] then s else
    var s1 := After(s, m, ops[..|ops| - 1]);
    if ops[|ops| - 1] then Lock(s1, m) else Unlock(s1, m)
  }

  /** No unlock among `ops` was made when locks exceeded unlocks by two. */
  ghost predicate Keeps(ops: seq<bool>) {
    forall i :: 0 <= i < |ops| && !ops[i] ==> Net(ops[..i]) != 2
  }

  /** A thread that never waited on a condition takes a mutex that it was woken from. It then holds it -1 times: over
      any sequence of its locks and unlocks the mutex is given back exactly at an unlock made when locks exceed
      unlocks by two, never by unlocks alone. */
  lemma {:induction false} ReleasedAtTwo(s: State, ops: seq<bool>)
    requires Good(s) && Pends(s) && s.a.resched <= 0 && s.Owner(s.Mutex(s.d.cur)) == 0
    requires At(s.a.val, s.d.cur, 0) == VAL_UNSET && Keeps(ops)
    ensures var m, s' := s.Mutex(s.d.cur), After(PendingLock(s), s.Mutex(s.d.cur), ops);
      && s'.d == s.d && s'.Owner(m) == s.d.cur && s'.Count(m) == -1 + Net(ops)
      && (Unlock(s', m).Owner(m) == 0 <==> Net(ops) == 2)
    decreases |ops|
  {
    var m := s.Mutex(s.d.cur);
    if ops == [] {
      SpoiltCount(s);
    } else {
      var p := ops[..|ops| - 1];
      KeepsPrefix(ops);
      ReleasedAtTwo(s, p);
      hide PendingLock, After, Net, Good;
      AfterLast(PendingLock(s), m, ops);
      OneMore(After(PendingLock(s), m, p), m, ops[|ops| - 1]);
    }
    LastUnlock(After(PendingLock(s), m, ops), m);
  }

  lemma KeepsPrefix(ops: seq<bool>)
    requires ops != [] && Keeps(ops)
    ensures var p := ops[..|ops| - 1];
      Keeps(p) && (!ops[|ops| - 1] ==> Net(p) != 2) && Net(ops) == Net(p) + (if ops[|ops| - 1] then 1 else -1)
  {
    var n := |ops| - 1;
    forall i | 0 <= i < n && !ops[..n][i] ensures Net(ops[..n][..i]) != 2 { assert ops[..n][..i] == ops[..i]; }
  }

  lemma AfterLast(s: State, m: nat, ops: seq<bool>)
    requires ops != []
    ensures var s1 := After(s, m, ops[..|ops| - 1]);
      After(s, m, ops) == if ops[|ops| - 1] then Lock(s1, m) else Unlock(s1, m)
  {
    hide Lock, Unlock;
  }

  lemma OneMore(s: State, m: nat, up: bool)
    requires s.d.cur != 0 && s.Owner(m) == s.d.cur && (up || s.Count(m) != 1)
    ensures (if up then Lock(s, m) else Unlock(s, m)) == s.PutCount(m, s.Count(m) + if up then 1 else -1)
  {
    hide Sleep, Wakeup, Promote;
  }

  lemma SpoiltCount(s: State)
    requires Good(s) && Pends(s) && s.a.resched <= 0 && s.Owner(s.Mutex(s.d.cur)) == 0
    requires At(s.a.val, s.d.cur, 0) == VAL_UNSET
    ensures var m := s.Mutex(s.d.cur);
      PendingLock(s).d == s.d && PendingLock(s).Owner(m) == s.d.cur && PendingLock(s).Count(m) == -1
  {
    RetryCases(s);
    PendingCases(s);
    AcquireHolds(s.PutMutex(s.d.cur, 0), s.Mutex(s.d.cur));
  }

  lemma LastUnlock(s: State, m: nat)
    requires s.d.cur != 0 && s.Owner(m) == s.d.cur
    ensures Unlock(s, m).Owner(m) == 0 <==> s.Count(m) == 1
  {
    hide Wakeup;
    assert s.Count(m) == 1 ==> Unlock(s, m).a == Release(s, m).a;
  }

  lemma WokenSees(s: State)
    requires S.Looks(s, S.WOKEN3)
    ensures Pends(s) && s.d.cur == 2 && s.Mutex(2) == 1 && s.Owner(1) == 0 && At(s.a.val, 2, 0) == VAL_UNSET
    ensures s.a.resched == 0 && R.Enabled(s, R.Retry) && R.Step(s, R.Retry) == PendingLock(s)
  {
    hide PendingLock;
  }

  /** It happens: after the run with the wake-up, the retry of thread 2 takes mutex 1 and holds it -1 times. */
  lemma RetrySpoils()
    ensures R.Allowed(Init(1), S.TO_WOKEN)
    ensures var s := R.Run(Init(1), S.TO_WOKEN);
      && R.Enabled(s, R.Retry) && Pends(s) && s.Mutex(s.d.cur) == 1 && s.Owner(1) == 0
         && At(s.a.val, s.d.cur, 0) == VAL_UNSET
      && R.Step(s, R.Retry).Owner(1) == s.d.cur && R.Step(s, R.Retry).Count(1) == -1
  {
    S.GetsWoken();
    R.InitGood(1);
    R.RunGood(Init(1), S.TO_WOKEN);
    var s := R.Run(Init(1), S.TO_WOKEN);
    hide R.Run, R.Allowed, S.TO_WOKEN, PendingLock, Good;
    WokenSees(s);
    SpoiltCount(s);
  }
}
