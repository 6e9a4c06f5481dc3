/** Waking and dispatching keep the scheduler sound and priority inheritance intact. */
module SchedKeep {
  import opened Lists
  import opened Sched
  import opened SchedInv
  import opened SchedChain
  import opened SchedCalls
  import B = ReadyBits

  /** The current thread, if any, runs. */
  ghost predicate CurOk(s: State) {
    s.d.cur != 0 ==> s.St(s.d.cur) == Running
  }

  /** No ready thread is strictly more urgent than the running one, and none is ready when nobody runs. */
  ghost predicate Dispatched(s: State) {
    && CurOk(s)
    && (forall t :: s.Runnable(t) ==> s.d.cur != 0 && s.Prio(s.d.cur) <= s.Prio(t))
  }

  /** Nothing about `t` that others depend on has changed, except that it may have left a wait queue. */
  ghost predicate Calm(s: State, s': State, t: nat) {
    && s'.Live(t) == s.Live(t) && (s'.St(t) == Dead <==> s.St(t) == Dead)
    && (s'.St(t) == Waiting ==> s.St(t) == Waiting && s'.Queue(t) == s.Queue(t))
    && Blocker(s', t) == Blocker(s, t)
  }

  ghost predicate AllCalm(s: State, s': State) {
    s'.a == s.a && forall t :: Calm(s, s', t)
  }

  lemma CalmTrans(a: State, b: State, c: State)
    requires AllCalm(a, b) && AllCalm(b, c)
    ensures AllCalm(a, c)
  {
    forall t ensures Calm(a, c, t) { assert Calm(a, b, t) && Calm(b, c, t); }
  }

  lemma CalmInherits(s: State, s': State)
    requires AllCalm(s, s') && forall v :: Inherits(s, v)
    ensures forall v :: Inherits(s', v)
  {
    forall v ensures Inherits(s', v) {
      assert Calm(s, s', v) && Inherits(s, v);
      if s'.Live(v) && s'.Susp(v) == 0 {
        var e := s.Prio(v);
        forall w | Blocker(s', w) == v ensures e <= s'.Prio(w) { assert Calm(s, s', w); }
        if e != s.Base(v) {
          var w :| Blocker(s, w) == v && s.Prio(w) == e;
          assert Calm(s, s', w) && Blocker(s', w) == v;
        }
      }
    }
  }

  // ----- entering and leaving transit

  lemma HoldWF(s: State, t: nat, X: set<nat>)
    requires WF(s, X) && (t !in X ==> !Placed(s, X, t))
    ensures WF(s, X + {t})
  {
    forall k, u ensures Located(s, X + {t}, k, u) { assert Located(s, X, k, u); }
    forall u ensures ThreadOk(s, X + {t}, u) { assert ThreadOk(s, X, u); }
    forall m ensures MutexOk(s, X + {t}, m) { assert MutexOk(s, X, m); }
  }

  lemma FreeWF(s: State, t: nat, X: set<nat>)
    requires WF(s, X) && s.St(t) != Waiting && !s.Runnable(t)
    requires s.Live(t) || t == 0 || forall m :: s.Owner(m) != t
    ensures WF(s, X - {t})
  {
    forall k, u ensures Located(s, X - {t}, k, u) { assert Located(s, X, k, u); }
    forall u ensures ThreadOk(s, X - {t}, u) { assert ThreadOk(s, X, u); }
    forall m ensures MutexOk(s, X - {t}, m) { assert MutexOk(s, X, m); }
  }

  // ----- wake-up

  lemma WithoutHead<T>(s: seq<T>)
    requires s != []
    ensures Without(s, s[0]) == s[1..]
  {
  }

  lemma WakeOneWF(s: State, k: Qid, X: set<nat>)
    requires WF(s, X) && !k.RunQ? && s.Q(k) != []
    ensures WF(WakeOne(s, k), X)
  {
    var n := s.Q(k)[0];
    assert n in s.Q(k) && Located(s, X, k, n) && ThreadOk(s, X, n);
    UnparkWF(s, n, X);
    WithoutHead(s.Q(k));
    var s1 := Unpark(s, n);
    var s2 := s1.PutSt(n, Ready);
    assert ThreadOk(s1, X + {n}, n);
    AdjustWF(s1, s2, n, X + {n});
    assert X + {n} - {n} == X;
    if 0 < s.Susp(n) {
      FreeWF(s2, n, X + {n});
    } else {
      SetRunWF(s2, n, X + {n});
    }
  }

  lemma WakeOneCalm(s: State, k: Qid, X: set<nat>)
    requires WF(s, X) && !k.RunQ? && s.Q(k) != [] && (k.MutexQ? ==> s.Owner(k.m) == 0)
    ensures AllCalm(s, WakeOne(s, k))
    ensures WakeOne(s, k).d.cur == s.d.cur && (s.d.hint ==> WakeOne(s, k).d.hint)
    ensures !WakeOne(s, k).d.hint ==> forall t :: WakeOne(s, k).Runnable(t) ==> s.Runnable(t)
    ensures forall t :: WakeOne(s, k).St(t) == Running <==> s.St(t) == Running
    ensures WakeOne(s, k).Q(k) == s.Q(k)[1..]
  {
    var n := s.Q(k)[0];
    assert n in s.Q(k) && Located(s, X, k, n) && ThreadOk(s, X, n);
    if 0 < s.Susp(n) {
      assert WakeOne(s, k) == s.PutQ(k, s.Q(k)[1..]).PutSt(n, Ready);
    } else {
      assert WakeOne(s, k) == SetRun(s.PutQ(k, s.Q(k)[1..]).PutSt(n, Ready), n);
    }
    forall t ensures Calm(s, WakeOne(s, k), t) {}
  }

  /** Waking the whole of queue `k` empties it and disturbs no thread's claim on another. */
  lemma {:induction false} WakeAllWF(s: State, k: Qid, X: set<nat>)
    requires WF(s, X) && !k.RunQ? && (k.MutexQ? ==> s.Owner(k.m) == 0)
    ensures var s' := WakeAll(s, k);
      && WF(s', X) && AllCalm(s, s') && s'.Q(k) == [] && s'.d.cur == s.d.cur && (s.d.hint ==> s'.d.hint)
      && (!s'.d.hint ==> forall t :: s'.Runnable(t) ==> s.Runnable(t))
      && (forall t :: s'.St(t) == Running <==> s.St(t) == Running)
    decreases |s.Q(k)|
  {
    if s.Q(k) == [] {
      forall t ensures Calm(s, s, t) {}
    } else {
      WakeOneWF(s, k, X);
      WakeOneCalm(s, k, X);
      var s1 := WakeOne(s, k);
      WakeAllWF(s1, k, X);
      CalmTrans(s, s1, WakeAll(s1, k));
    }
  }

  // ----- dispatch

  lemma PreemptWF(s: State, X: set<nat>)
    requires WF(s, X) && s.St(s.d.cur) == Running && s.d.cur !in X
    ensures WF(Preempt(s), X)
  {
    var t := s.d.cur;
    assert ThreadOk(s, X, t);
    HoldWF(s, t, X);
    var s1 := s.PutSt(t, Ready).PutCur(0);
    forall u ensures s.St(u) == Running ==> u == t { assert ThreadOk(s, X, u); }
    assert ThreadOk(s, X + {t}, t);
    AdjustWF(s, s1, t, X + {t});
    SetRunWF(s1, t, X + {t});
    assert X + {t} - {t} == X;
  }

  lemma TakeWF(s: State, p: nat, X: set<nat>)
    requires WF(s, X) && s.d.cur == 0 && s.Q(RunQ(p)) != []
    ensures WF(Take(s, p), X)
  {
    var k := RunQ(p);
    var n := s.Q(k)[0];
    assert n in s.Q(k) && Located(s, X, k, n) && ThreadOk(s, X, n);
    UnsetRunWF(s, n, X);
    WithoutHead(s.Q(k));
    var s1 := UnsetRun(s, n);
    var s2 := Take(s, p);
    assert ThreadOk(s1, X + {n}, n);
    forall u ensures s1.St(u) == Running ==> u == n { assert ThreadOk(s1, X + {n}, u); }
    assert s2.d == s1.d.(st := s2.d.st, queue := s2.d.queue, cur := s2.d.cur, hint := s2.d.hint);
    AdjustWF(s1, s2, n, X + {n});
    FreeWF(s2, n, X + {n});
    assert X + {n} - {n} == X;
  }

  /** Marked priorities are exactly those of the ready threads. */
  lemma MostUrgent(s: State, X: set<nat>)
    requires WF(s, X)
    ensures var p := B.Cntlzw(s.d.bits);
      && (s.d.bits == {} <==> p == 32)
      && (p < 32 ==> s.Q(RunQ(p)) != [])
      && (forall t :: s.Runnable(t) && t !in X ==> p < 32 && p <= s.Prio(t))
  {
    var p := B.Cntlzw(s.d.bits);
    if s.d.bits != {} {
      var b :| b in s.d.bits;
      assert B.Has(s.d.bits, 31 - b);
    }
    if p < 32 { assert QueueOk(s, RunQ(p)); }
    forall t | s.Runnable(t) && t !in X ensures p < 32 && p <= s.Prio(t) {
      assert ThreadOk(s, X, t) && Located(s, X, RunQ(s.Prio(t)), t) && QueueOk(s, RunQ(s.Prio(t)));
      assert B.Has(s.d.bits, s.Prio(t));
    }
  }

  lemma DispatchWF(s: State, X: set<nat>)
    requires WF(s, X) && s.d.cur == 0 && forall t :: t in X ==> !s.Runnable(t)
    requires forall t :: s.St(t) != Running
    ensures var s' := Dispatch(s); WF(s', X) && AllCalm(s, s') && Dispatched(s')
  {
    MostUrgent(s, X);
    var p := B.Cntlzw(s.d.bits);
    if s.d.bits == {} {
      assert Dispatch(s) == s;
      forall t ensures Calm(s, s, t) {}
    } else {
      assert Dispatch(s) == Take(s, p);
      TakeWF(s, p, X);
      var s' := Take(s, p);
      var n := s'.d.cur;
      assert n in s.Q(RunQ(p)) && Located(s, X, RunQ(p), n) && ThreadOk(s, X, n);
      forall t ensures Calm(s, s', t) {}
      assert s'.Prio(n) == p && s'.St(n) == Running;
      forall t | s'.Runnable(t) ensures p <= s'.Prio(t) { assert s.Runnable(t); }
    }
  }

  lemma SelectIdle(s: State, X: set<nat>)
    requires WF(s, X) && (s.d.cur == 0 || s.St(s.d.cur) != Running) && forall t :: t in X ==> !s.Live(t)
    ensures var s' := Dispatch(s.PutCur(0)); WF(s', X) && AllCalm(s, s') && Dispatched(s')
  {
    IdleWF(s, X);
    var s1 := s.PutCur(0);
    forall t ensures Calm(s, s1, t) && s1.St(t) != Running && (t in X ==> !s1.Runnable(t)) {
      assert s.St(t) != Running;
    }
    DispatchWF(s1, X);
    CalmTrans(s, s1, Dispatch(s1));
  }

  lemma SelectOther(s: State, X: set<nat>)
    requires WF(s, X) && s.d.cur != 0 && s.St(s.d.cur) == Running && forall t :: t in X ==> !s.Live(t)
    ensures var s' := Dispatch(Preempt(s)); WF(s', X) && AllCalm(s, s') && Dispatched(s')
  {
    PreemptWF(s, X);
    var s1 := Preempt(s);
    forall t ensures Calm(s, s1, t) && s1.St(t) != Running { assert ThreadOk(s, X, t); }
    DispatchWF(s1, X);
    CalmTrans(s, s1, Dispatch(s1));
  }

  /** With the scheduler enabled, `SelectThread` leaves the most urgent thread running. */
  lemma SelectWF(s: State, yielding: bool, X: set<nat>)
    requires WF(s, X) && s.a.resched <= 0 && forall t :: t in X ==> !s.Live(t)
    ensures var s' := Select(s, yielding); WF(s', X) && AllCalm(s, s') && Dispatched(s')
  {
    var c := s.d.cur;
    if c == 0 || s.St(c) != Running {
      assert Select(s, yielding) == Dispatch(s.PutCur(0));
      SelectIdle(s, X);
    } else if !yielding && s.Prio(c) <= B.Cntlzw(s.d.bits) {
      assert Select(s, yielding) == s;
      MostUrgent(s, X);
      forall t ensures Calm(s, s, t) {}
    } else {
      assert Select(s, yielding) == Dispatch(Preempt(s));
      SelectOther(s, X);
    }
  }

  lemma IdleWF(s: State, X: set<nat>)
    requires WF(s, X) && (s.d.cur == 0 || s.St(s.d.cur) != Running)
    ensures WF(s.PutCur(0), X) && forall t :: s.St(t) != Running
  {
    var s' := s.PutCur(0);
    assert ThreadOk(s, X, 0);
    forall k, u ensures Located(s', X, k, u) { assert Located(s, X, k, u); }
    forall k ensures QueueOk(s', k) { assert QueueOk(s, k); }
    forall u ensures ThreadOk(s', X, u) && s.St(u) != Running { assert ThreadOk(s, X, u); }
    forall m ensures MutexOk(s', X, m) { assert MutexOk(s, X, m); }
  }
}
