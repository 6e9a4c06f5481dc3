/** The scheduler's invariant between calls, and that every call keeps it. */
module SchedGood {
  import opened Lists
  import opened Sched
  import opened SchedInv
  import opened SchedChain
  import opened SchedCalls
  import opened SchedKeep

  /** There is a reason to wait in `k`: the mutex is held, the message queue is full or empty, the thread to join
      lives. */
  ghost predicate Open(s: State, k: Qid) {
    match k
    case MutexQ(m) => s.Owner(m) != 0
    case SendQ(i) => s.Mq(i).used >= s.Mq(i).count
    case RecvQ(i) => s.Mq(i).used == 0
    case JoinQ(j) => s.Live(j)
    case _ => true
  }

  /** `t`, unless it waits in one of `K`, has reason to wait where it does. */
  ghost predicate WaitOk(s: State, t: nat, K: set<Qid>) {
    s.St(t) == Waiting && s.Queue(t) !in K ==> Open(s, s.Queue(t))
  }

  ghost predicate ActiveOk(s: State) {
    NoDup(s.a.active) && forall t :: t in s.a.active <==> s.St(t) != Dead
  }

  ghost predicate MqOk(u: MsgQueue) {
    && 0 <= u.used
    && (u.count > 0 ==> 0 <= u.first < u.count <= |u.slot| && u.used <= u.count)
    && (u.count <= 0 ==> u.used == 0)
  }

  ghost predicate MqsOk(mq: map<nat, MsgQueue>) {
    forall i :: MqOk(At(mq, i, MsgQueue(0, 0, 0, [])))
  }

  /** Everything but the dispatching rule, with the waiters of queues `K` about to be woken. */
  ghost predicate SaneBut(s: State, K: set<Qid>) {
    && WF(s, {})
    && (forall t :: Inherits(s, t))
    && RestBut(s, K)
  }

  ghost predicate RestBut(s: State, K: set<Qid>) {
    (forall t :: WaitOk(s, t, K)) && ActiveOk(s) && MqsOk(s.a.mq)
  }

  ghost predicate Sane(s: State) {
    SaneBut(s, {})
  }

  ghost predicate HintOk(s: State) {
    s.d.hint || Dispatched(s)
  }

  /** The invariant between calls. */
  ghost predicate Good(s: State) {
    Sane(s) && CurOk(s) && HintOk(s)
  }

  /** What a call that ends by rescheduling achieves. */
  ghost predicate Settled(s: State) {
    Good(s) && (s.a.resched <= 0 ==> Dispatched(s))
  }

  lemma CalmRest(s: State, s': State, K: set<Qid>)
    requires RestBut(s, K) && AllCalm(s, s')
    ensures RestBut(s', K)
  {
    forall t ensures WaitOk(s', t, K) {
      assert Calm(s, s', t) && WaitOk(s, t, K);
      if s'.St(t) == Waiting && s'.Queue(t).JoinQ? { assert Calm(s, s', s'.Queue(t).t); }
    }
    forall t ensures t in s'.a.active <==> s'.St(t) != Dead { assert Calm(s, s', t); }
  }

  lemma CalmSane(s: State, s': State, K: set<Qid>)
    requires SaneBut(s, K) && AllCalm(s, s') && WF(s', {})
    ensures SaneBut(s', K)
  {
    CalmInherits(s, s');
    CalmRest(s, s', K);
  }

  lemma SelectSettles(s: State, yielding: bool)
    requires Sane(s) && (CurOk(s) || s.a.resched <= 0)
    requires HintOk(s) || s.a.resched <= 0
    ensures Settled(Select(s, yielding))
  {
    if 0 < s.a.resched {
      assert Select(s, yielding) == s;
    } else {
      SelectWF(s, yielding, {});
      CalmSane(s, Select(s, yielding), {});
    }
  }

  lemma RescheduleSettles(s: State)
    requires Sane(s) && HintOk(s) && (CurOk(s) || s.a.resched <= 0)
    ensures Settled(Reschedule(s))
  {
    if s.d.hint { SelectSettles(s, false); } else { assert Reschedule(s) == s; }
  }

  lemma WakeAllSane(s: State, k: Qid)
    requires SaneBut(s, {k}) && !k.RunQ? && (k.MutexQ? ==> s.Owner(k.m) == 0)
    ensures Sane(WakeAll(s, k)) && (CurOk(s) ==> CurOk(WakeAll(s, k))) && (HintOk(s) ==> HintOk(WakeAll(s, k)))
  {
    WakeAllWF(s, k, {});
    var s' := WakeAll(s, k);
    CalmSane(s, s', {k});
    forall t ensures WaitOk(s', t, {}) {
      assert Located(s', {}, k, t);
      assert WaitOk(s', t, {k});
    }
  }

  /** Once queue `k` no longer offers a reason to wait, waking it restores the invariant. */
  lemma WakeupSettles(s: State, k: Qid)
    requires SaneBut(s, {k}) && (CurOk(s) || s.a.resched <= 0)
    requires !k.RunQ? && (k.MutexQ? ==> s.Owner(k.m) == 0)
    requires HintOk(s) || HintOk(WakeAll(s, k))
    ensures Settled(Wakeup(s, k))
  {
    WakeAllSane(s, k);
    RescheduleSettles(WakeAll(s, k));
  }

  lemma YieldSettles(s: State)
    requires Good(s)
    ensures Settled(Yield(s))
  {
    SelectSettles(s, true);
  }

  lemma WakeupGood(s: State, k: Qid)
    requires Good(s) && (k.WaitQ? || k.JoinQ?)
    ensures Settled(Wakeup(s, k))
  {
    forall t ensures WaitOk(s, t, {k}) { assert WaitOk(s, t, {}); }
    WakeupSettles(s, k);
  }

  // ----- inheritance across a change of fields

  ghost predicate SameClaim(s: State, s': State, w: nat, v: nat) {
    (Blocker(s', w) == v <==> Blocker(s, w) == v) && (Blocker(s, w) == v ==> s'.Prio(w) == s.Prio(w))
  }

  lemma InheritsBy(s: State, s': State, v: nat)
    requires Inherits(s, v) && forall w :: SameClaim(s, s', w, v)
    requires s'.Live(v) && s'.Susp(v) == 0 ==>
      s.Live(v) && s.Susp(v) == 0 && s'.Prio(v) == s.Prio(v) && s'.Base(v) == s.Base(v)
    ensures Inherits(s', v)
  {
    if s'.Live(v) && s'.Susp(v) == 0 {
      var e := s.Prio(v);
      forall w | Blocker(s', w) == v ensures e <= s'.Prio(w) { assert SameClaim(s, s', w, v); }
      if e != s.Base(v) {
        var w :| Blocker(s, w) == v && s.Prio(w) == e;
        assert SameClaim(s, s', w, v) && Blocker(s', w) == v;
      }
    }
  }

  /** Recomputing a thread's own priority makes it inherit, whatever it was before. */
  lemma RefreshedInherits(s: State, s': State, t: nat, e: int)
    requires IsEff(s, t, e) && Blocker(s, t) != t && s'.Prio(t) == e && s'.Base(t) == s.Base(t)
    requires forall w :: w != t ==> Blocker(s', w) == Blocker(s, w) && s'.Prio(w) == s.Prio(w)
    requires Blocker(s', t) == Blocker(s, t)
    ensures Inherits(s', t)
  {
    if e != s.Base(t) {
      var w :| Blocker(s, w) == t && s.Prio(w) == e;
      assert Blocker(s', w) == t;
    }
  }

  // ----- creating a thread

  lemma EmptyOrMember<T>(s: seq<T>)
    ensures s == [] || exists x :: x in s
  {
    if s != [] { assert s[0] in s; }
  }

  lemma DeadHasNothing(s: State, t: nat)
    requires Sane(s) && t != 0 && s.St(t) == Dead
    ensures s.Q(JoinQ(t)) == [] && s.Own(t) == []
  {
    forall w ensures w !in s.Q(JoinQ(t)) {
      assert Located(s, {}, JoinQ(t), w) && WaitOk(s, w, {}) && ThreadOk(s, {}, w);
    }
    EmptyOrMember(s.Q(JoinQ(t)));
    forall m ensures m !in s.Own(t) { assert MutexOk(s, {}, m); }
    EmptyOrMember(s.Own(t));
  }

  lemma CreateQueues(s: State, t: nat, p: int, detach: bool)
    requires Sane(s) && t != 0 && s.St(t) == Dead && 0 <= p <= 31
    ensures var s' := Create(s, t, p, detach);
      (forall k, u :: Located(s', {}, k, u)) && (forall k :: QueueOk(s', k)) && OwnersOk(s'.a.own, s'.a.owner)
  {
    var s' := Create(s, t, p, detach);
    DeadHasNothing(s, t);
    CreatedFields(s, t, p, detach);
    hide Create, Inherits, RestBut;
    forall k, u ensures Located(s', {}, k, u) { assert Located(s, {}, k, u); }
    forall k ensures QueueOk(s', k) {
      assert QueueOk(s, k) && Located(s, {}, k, t);
      if !k.RunQ? { SortedFrame(s.Q(k), s.a.prio, s'.a.prio); }
    }
    OwnersSame(s.a.own, s'.a.own, s.a.owner);
  }

  lemma OwnersSame(own: map<nat, seq<nat>>, own': map<nat, seq<nat>>, owner: map<nat, nat>)
    requires OwnersOk(own, owner) && forall u: nat :: At(own', u, []) == At(own, u, [])
    ensures OwnersOk(own', owner)
  {
    forall u: nat, m: nat ensures Owns(own', owner, u, m) { assert Owns(own, owner, u, m); }
  }

  /** A new thread's empty lists are what its slot stood for before. */
  lemma CreatedFields(s: State, t: nat, p: int, detach: bool)
    requires 0 <= p <= 31 && s.Q(JoinQ(t)) == [] && s.Own(t) == []
    ensures var s' := Create(s, t, p, detach);
      && (forall k :: s'.Q(k) == s.Q(k)) && (forall u: nat :: At(s'.a.own, u, []) == At(s.a.own, u, []))
      && s'.a.owner == s.a.owner && s'.d.bits == s.d.bits && s'.St(t) == Ready && s'.Susp(t) == 1
      && (forall u :: u != t ==>
            s'.St(u) == s.St(u) && s'.Queue(u) == s.Queue(u) && s'.Susp(u) == s.Susp(u) && s'.Prio(u) == s.Prio(u))
  {
  }

  lemma CreateWF(s: State, t: nat, p: int, detach: bool)
    requires Sane(s) && t != 0 && s.St(t) == Dead && 0 <= p <= 31
    ensures WF(Create(s, t, p, detach), {})
  {
    var s' := Create(s, t, p, detach);
    CreateQueues(s, t, p, detach);
    forall u ensures ThreadOk(s', {}, u) { assert ThreadOk(s, {}, u); }
    forall m ensures MutexOk(s', {}, m) { assert MutexOk(s, {}, m); }
  }

  lemma CreateSane(s: State, t: nat, p: int, detach: bool)
    requires Sane(s) && t != 0 && s.St(t) == Dead && 0 <= p <= 31
    ensures Sane(Create(s, t, p, detach))
  {
    var s' := Create(s, t, p, detach);
    CreateWF(s, t, p, detach);
    assert ThreadOk(s', {}, 0);
    forall v ensures Inherits(s', v) {
      forall w ensures v != 0 ==> SameClaim(s, s', w, v) {}
      if v != 0 { InheritsBy(s, s', v); }
    }
    forall u ensures WaitOk(s', u, {}) { assert WaitOk(s, u, {}); }
    assert t !in s.a.active;
  }

  lemma CreateGood(s: State, t: nat, p: int, detach: bool)
    requires Good(s) && t != 0 && s.St(t) == Dead
    ensures Good(Create(s, t, p, detach))
    ensures Dispatched(s) ==> Dispatched(Create(s, t, p, detach))
  {
    if 0 <= p <= 31 {
      var s' := Create(s, t, p, detach);
      CreateSane(s, t, p, detach);
      assert ThreadOk(s, {}, s.d.cur);
      if Dispatched(s) {
        forall u | s'.Runnable(u) ensures s'.d.cur != 0 && s'.Prio(s'.d.cur) <= s'.Prio(u) { assert s.Runnable(u); }
      }
    } else {
      assert Create(s, t, p, detach) == s;
    }
  }

  // ----- suspending and resuming

  lemma RetunedRest(s: State, s': State)
    requires Retuned(s, s') && RestBut(s, {})
    ensures RestBut(s', {}) && (HintOk(s) ==> HintOk(s')) && (CurOk(s) ==> CurOk(s'))
  {
    forall t ensures WaitOk(s', t, {}) { assert WaitOk(s, t, {}) && SameStand(s, s', t); }
    if HintOk(s) && !s'.d.hint {
      assert SameStand(s, s', s.d.cur);
      forall t | s'.Runnable(t) ensures s'.d.cur != 0 && s'.Prio(s'.d.cur) <= s'.Prio(t) {
        assert SameStand(s, s', t) && s.Runnable(t);
      }
    }
  }

  /** The chain started by a waiter whose priority has changed restores inheritance. */
  lemma NotifySane(s: State, t: nat)
    requires WF(s, {}) && RestBut(s, {}) && HintOk(s) && CurOk(s) && s.St(t) == Waiting
    requires forall v :: v != Blocker(s, t) ==> Inherits(s, v)
    ensures var s' := Notify(s, t, {});
      !s'.d.fault ==> Sane(s') && HintOk(s') && CurOk(s') && s'.a.resched == s.a.resched
    ensures !Notify(s, t, {}).d.fault
  {
    assert ThreadOk(s, {}, t) && ThreadOk(s, {}, 0) && WaitOk(s, t, {});
    var u := Blocker(s, t);
    if s.Mutex(t) == 0 {
      assert Notify(s, t, {}) == s;
    } else {
      assert MutexOk(s, {}, s.Mutex(t));
      assert UpdateReady(s, u, {});
      assert Notify(s, t, {}) == Update(s, u, {});
      UpdateClean(s, u);
      UpdateWF(s, u, {});
      UpdateRetunes(s, u, {});
      UpdateInherits(s, u, {});
      RetunedRest(s, Update(s, u, {}));
    }
  }

  lemma {:induction false} UpdateClean(s: State, t: nat)
    requires UpdateReady(s, t, {})
    ensures !Update(s, t, {}).d.fault
    decreases Reach(s, t)
  {
    UpdateUnfold(s, t, {});
    if !(0 < s.Susp(t) || s.Prio(t) == Effective(s, t)) {
      UpdateStep(s, t, {});
      var (s', u) := SetEffective(s, t, Effective(s, t));
      if u != 0 { UpdateClean(s', u); }
    }
  }

  /** A waiter whose suspension count and priority change takes its new place in the same queue. */
  lemma ReparkWF(s: State, s': State, t: nat, r: seq<nat>)
    requires WF(s, {}) && s.St(t) == Waiting
    requires s' == Unpark(s, t).PutSusp(t, s'.Susp(t)).PutPrio(t, s'.Prio(t)).PutQ(s.Queue(t), r)
    requires s'.Susp(t) >= 0 && (if s'.Susp(t) == 0 then 0 <= s'.Prio(t) < 32 else s'.Prio(t) == 32)
    requires var l := Without(s.Q(s.Queue(t)), t);
      NoDup(r) && Sorted(r, s'.a.prio) && forall u :: u in r <==> u in l || u == t
    ensures WF(s', {})
  {
    assert ThreadOk(s, {}, t);
    UnparkWF(s, t, {});
    var s1 := Unpark(s, t);
    var s2 := s1.PutSusp(t, s'.Susp(t)).PutPrio(t, s'.Prio(t));
    assert ThreadOk(s1, {t}, t);
    assert {} + {t} == {t};
    AdjustWF(s1, s2, t, {t});
    ParkAs(s2, t, r, {t});
    assert {t} - {t} == {};
  }

  lemma ReparkRest(s: State, s': State, t: nat, r: seq<nat>)
    requires Good(s) && s.St(t) == Waiting
    requires s' == Unpark(s, t).PutSusp(t, s'.Susp(t)).PutPrio(t, s'.Prio(t)).PutQ(s.Queue(t), r)
    ensures RestBut(s', {}) && HintOk(s') && CurOk(s')
    ensures forall v :: v != t && v != Blocker(s', t) ==> Inherits(s', v)
    ensures forall w :: Blocker(s', w) == Blocker(s, w)
  {
    forall u ensures WaitOk(s', u, {}) { assert WaitOk(s, u, {}); }
    if !s'.d.hint {
      forall u | s'.Runnable(u) ensures s'.d.cur != 0 && s'.Prio(s'.d.cur) <= s'.Prio(u) { assert s.Runnable(u); }
    }
    forall v | v != t && v != Blocker(s', t) ensures Inherits(s', v) {
      forall w ensures SameClaim(s, s', w, v) {}
      InheritsBy(s, s', v);
    }
  }
}
