/** Going to sleep, and locking with priority inheritance. */
module SchedMutex {
  import opened Lists
  import opened Sched
  import opened SchedInv
  import opened SchedChain
  import opened SchedCalls
  import opened SchedKeep
  import opened SchedGood

  // ----- going to sleep

  /** `u` already has the priority it is due once a thread of priority `p` is parked on one of its mutexes. */
  ghost predicate Prepared(s: State, u: nat, p: int) {
    s.Live(u) && s.Susp(u) == 0 ==>
      && s.Prio(u) <= s.Base(u) && s.Prio(u) <= p
      && (forall w :: Blocker(s, w) == u ==> s.Prio(u) <= s.Prio(w))
      && (s.Prio(u) in {s.Base(u), p} || exists w :: Blocker(s, w) == u && s.Prio(w) == s.Prio(u))
  }

  /** The current thread may park in `k`. */
  ghost predicate MaySleep(s: State, k: Qid) {
    var t := s.d.cur;
    && t != 0 && s.a.resched <= 0 && CurOk(s) && k != NoQ && !k.RunQ? && Open(s, k)
    && (s.Mutex(t) != 0 <==> k.MutexQ?)
    && (k.MutexQ? ==> k.m == s.Mutex(t) && s.Owner(k.m) != t)
  }

  lemma SleepWF(s: State, k: Qid)
    requires WF(s, {}) && MaySleep(s, k)
    ensures WF(Park(s.PutSt(s.d.cur, Waiting).PutQueue(s.d.cur, k), s.d.cur).Hint(), {})
  {
    var t := s.d.cur;
    var s1 := s.PutSt(t, Waiting).PutQueue(t, k).Hint();
    HoldWF(s, t, {});
    assert {} + {t} == {t} && {t} - {t} == {};
    assert ThreadOk(s, {t}, t);
    AdjustWF(s, s1, t, {t});
    ParkWF(s1, t, {t});
    assert Park(s.PutSt(t, Waiting).PutQueue(t, k), t).Hint() == Park(s1, t);
  }

  lemma SleepInherits(s: State, s': State, k: Qid)
    requires WF(s, {}) && WF(s', {}) && MaySleep(s, k)
    requires var u := if k.MutexQ? then s.Owner(k.m) else 0;
      (forall v :: v != u ==> Inherits(s, v)) && (u != 0 ==> Prepared(s, u, s.Prio(s.d.cur)))
    requires var t := s.d.cur;
      && s'.a == s.a && s'.d.st == s.d.st[t := Waiting] && s'.d.queue == s.d.queue[t := k]
    ensures forall v :: Inherits(s', v)
  {
    var t := s.d.cur;
    var u := if k.MutexQ? then s.Owner(k.m) else 0;
    assert ThreadOk(s', {}, 0) && ThreadOk(s, {}, t);
    forall v ensures Inherits(s', v) {
      if v == u {
        if u != 0 { ParkedInherits(s, s', t, u); }
      } else {
        forall w ensures v != 0 ==> SameClaim(s, s', w, v) {}
        if v != 0 { InheritsBy(s, s', v); }
      }
    }
  }

  /** Parking the current thread, its owner being prepared, keeps the invariant and dispatches another. */
  lemma SleepSettles(s: State, k: Qid)
    requires WF(s, {}) && MaySleep(s, k) && RestBut(s, {})
    requires var u := if k.MutexQ? then s.Owner(k.m) else 0;
      (forall v :: v != u ==> Inherits(s, v)) && (u != 0 ==> Prepared(s, u, s.Prio(s.d.cur)))
    ensures Good(Sleep(s, k)) && Dispatched(Sleep(s, k))
  {
    var t := s.d.cur;
    var s' := Park(s.PutSt(t, Waiting).PutQueue(t, k), t).Hint();
    SleepWF(s, k);
    SleepInherits(s, s', k);
    assert ThreadOk(s, {}, t);
    forall w ensures WaitOk(s', w, {}) { assert WaitOk(s, w, {}); }
    RescheduleSettles(s');
  }

  /** The owner's priority, prepared before the waiter parked, is right once it has. */
  lemma ParkedInherits(s: State, s': State, t: nat, u: nat)
    requires Prepared(s, u, s.Prio(t)) && s'.a == s.a && u != t && s.St(t) != Waiting
    requires forall w :: w != t ==> s'.St(w) == s.St(w) && s'.Queue(w) == s.Queue(w)
    requires Blocker(s', t) == u && u != 0
    ensures Inherits(s', u)
  {
    if s'.Live(u) && s'.Susp(u) == 0 {
      var e := s.Prio(u);
      forall w | Blocker(s', w) == u ensures e <= s'.Prio(w) {
        if w != t { assert Blocker(s, w) == u; }
      }
      if e != s.Base(u) && e != s.Prio(t) {
        var w :| Blocker(s, w) == u && s.Prio(w) == e;
        assert w != t && Blocker(s', w) == u;
      } else if e == s.Prio(t) {
        assert Blocker(s', t) == u && s'.Prio(t) == e;
      }
    }
  }

  lemma SleepGood(s: State, k: Qid)
    requires Good(s) && s.d.cur != 0 && s.a.resched <= 0 && s.Mutex(s.d.cur) == 0
    requires !k.NoQ? && !k.RunQ? && !k.MutexQ? && Open(s, k)
    ensures Good(Sleep(s, k)) && Dispatched(Sleep(s, k))
  {
    SleepSettles(s, k);
  }

  // ----- promotion of an owner

  lemma PromoteOwner(s: State, o: nat, p: nat)
    requires WF(s, {}) && p < 32 && o != 0 && s.Live(o) && forall v :: Inherits(s, v)
    ensures var s' := Promote(s, o, p);
      && WF(s', {}) && Retuned(s, s')
      && (forall v :: Promoted(s, s', p, v))
      && (forall v :: v != o ==> Inherits(s', v))
      && (s.Susp(o) == 0 ==> s'.Prio(o) <= p)
  {
    assert ThreadOk(s, {}, o) && ThreadOk(s, {}, 0);
    if 0 < s.Susp(o) || s.Prio(o) <= p {
      assert Promote(s, o, p) == s;
      forall t ensures SameStand(s, s, t) {}
    } else {
      PromoteFirst(s, o, p);
      var (s1, u) := SetEffective(s, o, p);
      AboveShrinks(s.a.prio, o, p);
      if u == 0 {
        assert Promote(s, o, p) == s1 && ThreadOk(s1, {}, 0);
      } else {
        assert Promote(s, o, p) == Promote(s1, u, p);
        PromoteThen(s, s1, o, u, p);
      }
    }
  }

  lemma PromoteThen(s: State, s1: State, o: nat, u: nat, p: nat)
    requires WF(s1, {}) && Retuned(s, s1) && s1.a.prio == s.a.prio[o := p] && p < 32 && u != o && u != 0 && s1.Live(u)
    requires forall v :: Promoted(s, s1, p, v)
    requires forall v :: v != u && v != o ==> Inherits(s1, v)
    requires s1.Susp(u) == 0 ==> IsEff(s1, u, if s1.Prio(u) <= p then s1.Prio(u) else p)
    ensures var s' := Promote(s1, u, p);
      && WF(s', {}) && Retuned(s, s')
      && (forall v :: Promoted(s, s', p, v))
      && (forall v :: v != o ==> Inherits(s', v))
      && s'.Prio(o) <= p
  {
    PromoteChain(s1, u, p, o);
    var s' := Promote(s1, u, p);
    assert Promoted(s1, s', p, o);
    RetunedTrans(s, s1, s');
    forall v ensures Promoted(s, s', p, v) { assert Promoted(s, s1, p, v) && Promoted(s1, s', p, v); }
  }

  lemma PromoteFirst(s: State, o: nat, p: nat)
    requires WF(s, {}) && p < 32 && o != 0 && s.Live(o) && s.Susp(o) == 0 && s.Prio(o) > p
    requires forall v :: Inherits(s, v)
    ensures var (s1, u) := SetEffective(s, o, p);
      && WF(s1, {}) && Retuned(s, s1) && s1.a.prio == s.a.prio[o := p] && u != o
      && (forall v :: Promoted(s, s1, p, v))
      && (forall v :: v != u && v != o ==> Inherits(s1, v))
      && (u != 0 ==> s1.Live(u) && (s1.Susp(u) == 0 ==> IsEff(s1, u, if s1.Prio(u) <= p then s1.Prio(u) else p)))
  {
    SetEffectiveRetunes(s, o, p, {});
    SetEffectiveWF(s, o, p, {});
    var (s1, u) := SetEffective(s, o, p);
    forall v | v != u && v != o ensures Inherits(s1, v) { StepInherits(s, s1, o, v); }
    if u != 0 {
      assert ThreadOk(s, {}, o) && MutexOk(s, {}, s.Queue(o).m) && ThreadOk(s, {}, u);
      if s1.Susp(u) == 0 {
        assert Inherits(s, u);
        DropAt(s, s1, o);
      }
    }
  }

  /** After promotion the owner is prepared for its new waiter. */
  lemma PromotePrepares(s: State, o: nat, p: nat)
    requires WF(s, {}) && p < 32 && o != 0 && s.Live(o) && forall v :: Inherits(s, v)
    ensures Prepared(Promote(s, o, p), o, p)
  {
    PromoteOwner(s, o, p);
    var s' := Promote(s, o, p);
    assert ThreadOk(s, {}, o) && Inherits(s, o) && Promoted(s, s', p, o);
    if s.Susp(o) == 0 {
      forall w | Blocker(s', w) == o ensures s'.Prio(o) <= s'.Prio(w) {
        assert SameStand(s, s', w) && Promoted(s, s', p, w);
      }
      if s'.Prio(o) != s.Base(o) && s'.Prio(o) != p {
        assert s' == s;
      }
    }
  }

  // ----- locking

  /** Naming the mutex it is about to wait for changes nothing else about the running thread. */
  lemma ClaimMutex(s: State, m: nat)
    requires Good(s) && s.d.cur != 0 && s.Owner(m) != 0
    ensures var s0 := s.PutMutex(s.d.cur, m);
      && WF(s0, {}) && (forall v :: Inherits(s0, v)) && s0.Live(s.Owner(m)) && 0 <= s.Prio(s.d.cur) < 32
  {
    var s0 := s.PutMutex(s.d.cur, m);
    assert ThreadOk(s, {}, s.d.cur) && MutexOk(s, {}, m);
    RunnerWF(s, s0);
    forall v ensures Inherits(s0, v) {
      forall w ensures SameClaim(s, s0, w, v) {}
      InheritsBy(s, s0, v);
    }
  }

  /** Blocking needs an enabled scheduler and a thread that is not itself on its way back to a mutex. */
  lemma LockContended(s: State, m: nat)
    requires Good(s) && s.d.cur != 0 && m != 0 && s.a.resched <= 0 && s.Owner(m) != 0 && s.Owner(m) != s.d.cur
    ensures Good(Lock(s, m)) && Dispatched(Lock(s, m)) && Lock(s, m).a.resched == s.a.resched
  {
    var t, o := s.d.cur, s.Owner(m);
    var p := s.Prio(t);
    var s0 := s.PutMutex(t, m);
    ClaimMutex(s, m);
    PromoteOwner(s0, o, p);
    PromotePrepares(s0, o, p);
    var s1 := Promote(s0, o, p);
    assert Promoted(s0, s1, p, t);
    forall u ensures WaitOk(s1, u, {}) { assert WaitOk(s, u, {}) && SameStand(s0, s1, u); }
    SleepSettles(s1, MutexQ(m));
    assert Lock(s, m) == Sleep(s1, MutexQ(m));
  }

  /** The running thread stands in no queue, so its own priority and mutex field may change. */
  lemma RunnerWF(s: State, s': State)
    requires WF(s, {}) && s.d.cur != 0 && s.St(s.d.cur) == Running
    requires var t := s.d.cur;
      s' == s.PutPrio(t, s'.Prio(t)) || s' == s.PutMutex(t, s'.Mutex(t))
    requires 0 <= s'.Prio(s.d.cur) < 32
    ensures WF(s', {})
  {
    var t := s.d.cur;
    HoldWF(s, t, {});
    assert {} + {t} == {t} && {t} - {t} == {};
    assert ThreadOk(s, {t}, t);
    AdjustWF(s, s', t, {t});
    FreeWF(s', t, {t});
  }

  lemma OwnersAdd(own: map<nat, seq<nat>>, owner: map<nat, nat>, t: nat, m: nat)
    requires OwnersOk(own, owner) && At(owner, m, 0) == 0 && t != 0 && m != 0
    ensures OwnersOk(own[t := At(own, t, []) + [m]], owner[m := t])
  {
    assert m !in At(own, t, []);
    var own', owner' := own[t := At(own, t, []) + [m]], owner[m := t];
    forall u: nat, n: nat ensures Owns(own', owner', u, n) { assert Owns(own, owner, u, n); }
    forall u: nat ensures NoDup(At(own', u, [])) { assert NoDup(At(own, u, [])); }
  }

  lemma OwnersDrop(own: map<nat, seq<nat>>, owner: map<nat, nat>, m: nat)
    requires OwnersOk(own, owner) && At(owner, m, 0) != 0
    ensures var t := At(owner, m, 0); OwnersOk(own[t := Without(At(own, t, []), m)], owner[m := 0])
  {
    var t := At(owner, m, 0);
    assert NoDup(At(own, t, []));
    WithoutMembers(At(own, t, []), m);
    var own', owner' := own[t := Without(At(own, t, []), m)], owner[m := 0];
    forall u: nat, n: nat ensures Owns(own', owner', u, n) { assert Owns(own, owner, u, n); }
    forall u: nat ensures NoDup(At(own', u, [])) { assert NoDup(At(own, u, [])); }
  }

  /** The mutex is free: nobody waits for it, so taking it changes nobody's effective priority. */
  lemma AcquireWF(s: State, m: nat)
    requires Good(s) && s.d.cur != 0 && m != 0 && s.Owner(m) == 0
    ensures WF(Acquire(s, m), {})
  {
    var t, s' := s.d.cur, Acquire(s, m);
    assert MutexOk(s, {}, m);
    OwnersAdd(s.a.own, s.a.owner, t, m);
    forall k, u ensures Located(s', {}, k, u) { assert Located(s, {}, k, u); }
    forall k ensures QueueOk(s', k) { assert QueueOk(s, k); }
    forall u ensures ThreadOk(s', {}, u) { assert ThreadOk(s, {}, u) && WaitOk(s, u, {}); }
    forall n ensures MutexOk(s', {}, n) { assert MutexOk(s, {}, n); }
  }

  lemma AcquireGood(s: State, m: nat)
    requires Good(s) && s.d.cur != 0 && m != 0 && s.Owner(m) == 0
    ensures Good(Acquire(s, m)) && (Dispatched(s) ==> Dispatched(Acquire(s, m)))
  {
    var t, s' := s.d.cur, Acquire(s, m);
    AcquireWF(s, m);
    forall w ensures Blocker(s', w) == Blocker(s, w) && WaitOk(s', w, {}) { assert WaitOk(s, w, {}); }
    forall v ensures Inherits(s', v) {
      forall w ensures SameClaim(s, s', w, v) {}
      InheritsBy(s, s', v);
    }
    SameDispatch(s, s');
  }

  /** Dispatching looks only at states, priorities and suspension. */
  lemma SameDispatch(s: State, s': State)
    requires s'.d.st == s.d.st && s'.a.prio == s.a.prio && s'.a.susp == s.a.susp && s'.d.cur == s.d.cur
    ensures Dispatched(s) ==> Dispatched(s')
  {
    if Dispatched(s) {
      forall u | s'.Runnable(u) ensures s'.d.cur != 0 && s'.Prio(s'.d.cur) <= s'.Prio(u) { assert s.Runnable(u); }
    }
  }

  lemma RelockGood(s: State, m: nat, c: int)
    requires Good(s) && s.Owner(m) != 0
    ensures Good(s.PutCount(m, c)) && (Dispatched(s) ==> Dispatched(s.PutCount(m, c)))
  {
    var s' := s.PutCount(m, c);
    forall k, u ensures Located(s', {}, k, u) { assert Located(s, {}, k, u); }
    forall k ensures QueueOk(s', k) { assert QueueOk(s, k); }
    forall u ensures ThreadOk(s', {}, u) && WaitOk(s', u, {}) { assert ThreadOk(s, {}, u) && WaitOk(s, u, {}); }
    forall n ensures MutexOk(s', {}, n) { assert MutexOk(s, {}, n); }
    forall v ensures Inherits(s', v) {
      forall w ensures SameClaim(s, s', w, v) {}
      InheritsBy(s, s', v);
    }
    SameDispatch(s, s');
  }

  /** `OSLockMutex`, taken, retaken or contended. */
  lemma LockGood(s: State, m: nat)
    requires Good(s) && s.d.cur != 0 && m != 0 && (s.Owner(m) in {0, s.d.cur} || s.a.resched <= 0)
    ensures Good(Lock(s, m)) && (s.a.resched <= 0 && Dispatched(s) ==> Dispatched(Lock(s, m)))
    ensures Lock(s, m).a.resched == s.a.resched
  {
    assert MutexOk(s, {}, m);
    if s.Owner(m) == 0 {
      assert Lock(s, m) == Acquire(s, m);
      AcquireGood(s, m);
    } else if s.Owner(m) == s.d.cur {
      assert Lock(s, m) == s.PutCount(m, s.Count(m) + 1);
      RelockGood(s, m, s.Count(m) + 1);
    } else {
      LockContended(s, m);
    }
  }

  lemma TryLockGood(s: State, m: nat)
    requires Good(s) && s.d.cur != 0 && m != 0
    ensures var (s', ok) := TryLock(s, m);
      Good(s') && (Dispatched(s) ==> Dispatched(s')) && (ok <==> s'.Owner(m) == s.d.cur)
  {
    assert MutexOk(s, {}, m);
    if s.Owner(m) == 0 { AcquireGood(s, m); } else if s.Owner(m) == s.d.cur { RelockGood(s, m, s.Count(m) + 1); }
  }

  /** A woken waiter forgets the mutex it waited for: it gave up its claim when it was woken. */
  lemma ForgetMutex(s: State)
    requires Good(s) && s.d.cur != 0 && s.Mutex(s.d.cur) != 0
    ensures Good(s.PutMutex(s.d.cur, 0)) && (Dispatched(s) ==> Dispatched(s.PutMutex(s.d.cur, 0)))
  {
    var s' := s.PutMutex(s.d.cur, 0);
    assert ThreadOk(s, {}, s.d.cur);
    RunnerWF(s, s');
    forall v ensures Inherits(s', v) {
      forall w ensures SameClaim(s, s', w, v) {}
      InheritsBy(s, s', v);
    }
    forall u ensures WaitOk(s', u, {}) { assert WaitOk(s, u, {}); }
    SameDispatch(s, s');
  }

  /** A woken waiter's retry. */
  lemma RetryGood(s: State)
    requires Good(s) && s.d.cur != 0 && s.Mutex(s.d.cur) != 0 && s.a.resched <= 0
    ensures Good(Retry(s)) && (Dispatched(s) ==> Dispatched(Retry(s))) && Retry(s).a.resched == s.a.resched
  {
    ForgetMutex(s);
    LockGood(s.PutMutex(s.d.cur, 0), s.Mutex(s.d.cur));
  }

  // ----- unlocking

  /** The mutex leaves its owner's list. */
  function Unowned(s: State, m: nat): State {
    var t := s.d.cur;
    s.(a := s.a.(own := s.a.own[t := Without(s.Own(t), m)], owner := s.a.owner[m := 0], count := s.a.count[m := 0]))
  }

  lemma UnownedWF(s: State, m: nat)
    requires WF(s, {}) && s.d.cur != 0 && s.Owner(m) == s.d.cur
    ensures WF(Unowned(s, m), {})
  {
    var t, s' := s.d.cur, Unowned(s, m);
    assert ThreadOk(s, {}, 0);
    forall k, u ensures Located(s', {}, k, u) { assert Located(s, {}, k, u); }
    forall k ensures QueueOk(s', k) { assert QueueOk(s, k); }
    forall u ensures ThreadOk(s', {}, u) { assert ThreadOk(s, {}, u); }
    forall n ensures MutexOk(s', {}, n) { assert MutexOk(s, {}, n); }
    OwnersDrop(s.a.own, s.a.owner, m);
  }

  /** The owner's claim on others' urgency after it gave mutex `m` up: either nothing changes,
      or the thread it owed its priority to waits for `m`, unsuspended. */
  lemma UnownedEff(s: State, m: nat, e: int)
    requires WF(s, {}) && s.d.cur != 0 && s.Owner(m) == s.d.cur && s.St(s.d.cur) == Running && Inherits(s, s.d.cur)
    requires IsEff(Unowned(s, m), s.d.cur, e)
    ensures e == s.Prio(s.d.cur) || exists w :: w in s.Q(MutexQ(m)) && s.Susp(w) == 0
    ensures s.Prio(s.d.cur) >= s.Base(s.d.cur) ==> e == s.Prio(s.d.cur)
  {
    var t, s1, p := s.d.cur, Unowned(s, m), s.Prio(s.d.cur);
    assert ThreadOk(s, {}, t) && IsEff(s, t, p);
    forall w ensures Blocker(s1, w) == t ==> Blocker(s, w) == t {}
    assert p <= e by {
      if e != s.Base(t) {
        var w :| Blocker(s1, w) == t && s1.Prio(w) == e;
        assert Blocker(s, w) == t;
      }
    }
    if e != p {
      var w :| Blocker(s, w) == t && s.Prio(w) == p;
      assert Blocker(s1, w) != t;
      assert ThreadOk(s, {}, w) && Located(s, {}, MutexQ(m), w);
    }
  }

  lemma ReleaseParts(s: State, m: nat)
    ensures var t, s1 := s.d.cur, Unowned(s, m);
      && s1.d == s.d && s1.a.prio == s.a.prio && s1.a.base == s.a.base && s1.a.susp == s.a.susp && s1.Owner(m) == 0
      && s1.a.active == s.a.active && s1.a.mq == s.a.mq && s1.a.resched == s.a.resched
      && Release(s, m) == if s1.Prio(t) < s1.Base(t) then s1.PutPrio(t, Effective(s1, t)) else s1
  {
    hide Effective;
  }

  lemma ReleaseSane(s: State, m: nat)
    requires Good(s) && s.d.cur != 0 && s.Owner(m) == s.d.cur
    ensures SaneBut(Release(s, m), {MutexQ(m)}) && Release(s, m).d == s.d && Release(s, m).Owner(m) == 0
    ensures HintOk(Release(s, m)) || exists w :: w in s.Q(MutexQ(m)) && s.Susp(w) == 0
    ensures Release(s, m).a.susp == s.a.susp
  {
    var t, s1, s2 := s.d.cur, Unowned(s, m), Release(s, m);
    assert ThreadOk(s, {}, t) && ThreadOk(s, {}, 0) && Inherits(s, t);
    hide Inherits, IsEff, Effective, Unowned, Release;
    UnownedWF(s, m);
    ReleaseParts(s, m);
    var e := Effective(s1, t);
    EffectiveIsMin(s1, t, {});
    EffRange(s1, t, e, {});
    UnownedEff(s, m, e);
    if s1.Prio(t) < s1.Base(t) {
      assert s2 == s1.PutPrio(t, e);
      RunnerWF(s1, s2);
    } else {
      assert s2 == s1;
    }
    ReleaseInherits(s, m, s2, e);
    ReleaseRest(s, s1, s2, m);
    hide WF, RestBut;
    if e == s.Prio(t) && HintOk(s) { ReleaseDispatch(s, s2); }
  }

  lemma ReleaseRest(s: State, s1: State, s2: State, m: nat)
    requires RestBut(s, {}) && s1 == Unowned(s, m)
    requires s2.d == s1.d && s2.a.active == s1.a.active && s2.a.mq == s1.a.mq && s2.a.owner == s1.a.owner
    ensures RestBut(s2, {MutexQ(m)})
  {
    forall u ensures WaitOk(s2, u, {MutexQ(m)}) { assert WaitOk(s, u, {}); }
  }

  lemma ReleaseDispatch(s: State, s2: State)
    requires HintOk(s) && s2.d == s.d && s2.a.susp == s.a.susp
    requires forall u :: s2.Prio(u) == s.Prio(u)
    ensures HintOk(s2)
  {
    if Dispatched(s) {
      forall u | s2.Runnable(u) ensures s2.d.cur != 0 && s2.Prio(s2.d.cur) <= s2.Prio(u) { assert s.Runnable(u); }
    }
  }

  lemma ReleaseInherits(s: State, m: nat, s2: State, e: int)
    requires WF(s, {}) && s.d.cur != 0 && s.Owner(m) == s.d.cur && s.St(s.d.cur) == Running && WF(s2, {})
    requires forall v :: Inherits(s, v)
    requires var s1 := Unowned(s, m);
      IsEff(s1, s.d.cur, e) && (s2 == s1.PutPrio(s.d.cur, e) || (s2 == s1 && e == s1.Prio(s.d.cur)))
    ensures forall v :: Inherits(s2, v)
  {
    var t, s1 := s.d.cur, Unowned(s, m);
    assert ThreadOk(s2, {}, 0);
    forall v ensures Inherits(s2, v) {
      if v == t {
        RefreshedInherits(s1, s2, t, e);
      } else {
        forall w ensures v != 0 ==> SameClaim(s, s2, w, v) {}
        if v != 0 { InheritsBy(s, s2, v); }
      }
    }
  }

  /** Waking a queue with an unsuspended thread in it asks for a reschedule. */
  lemma {:induction false} WakeAllHints(s: State, k: Qid, w: nat)
    requires WF(s, {}) && !k.RunQ? && (k.MutexQ? ==> s.Owner(k.m) == 0) && w in s.Q(k) && s.Susp(w) == 0
    ensures WakeAll(s, k).d.hint
    decreases |s.Q(k)|
  {
    WakeOneWF(s, k, {});
    WakeOneCalm(s, k, {});
    var s1 := WakeOne(s, k);
    WakeAllWF(s1, k, {});
    if w != s.Q(k)[0] { WakeAllHints(s1, k, w); }
  }

  /** `OSUnlockMutex`. The thread that gives back an inherited priority is overtaken at once. */
  lemma UnlockGood(s: State, m: nat)
    requires Good(s) && s.d.cur != 0
    ensures Good(Unlock(s, m)) && (s.a.resched <= 0 && Dispatched(s) ==> Dispatched(Unlock(s, m)))
    ensures Unlock(s, m).a.resched == s.a.resched
  {
    assert MutexOk(s, {}, m);
    if s.Owner(m) != s.d.cur {
      assert Unlock(s, m) == s;
    } else if s.Count(m) - 1 != 0 {
      assert Unlock(s, m) == s.PutCount(m, s.Count(m) - 1);
      RelockGood(s, m, s.Count(m) - 1);
    } else {
      var s2 := Release(s, m);
      assert Unlock(s, m) == Wakeup(s2, MutexQ(m));
      ReleaseSane(s, m);
      if !HintOk(s2) {
        var w :| w in s.Q(MutexQ(m)) && s.Susp(w) == 0;
        WakeAllHints(s2, MutexQ(m), w);
      }
      WakeupSettles(s2, MutexQ(m));
    }
  }
}
