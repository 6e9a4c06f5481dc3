/** Whole runs of the scheduler: what holds after any sequence of calls. */
module SchedRuns {
  import opened Lists
  import opened Sched
  import opened SchedInv
  import opened SchedChain
  import opened SchedCalls
  import opened SchedKeep
  import opened SchedGood
  import opened SchedSuspend
  import opened SchedMutex
  import opened SchedMessage
  import opened SchedExit
  import opened SchedRetry
  import opened SchedRing

  datatype Call =
    | Create(t: nat, p: int, detach: bool)
    | Resume(t: nat)
    | Suspend(t: nat)
    | Sleep(k: Qid)
    | Wakeup(k: Qid)
    | Yield
    | Exit(v: int)
    | Cancel(t: nat)
    | Lock(m: nat)
    | TryLock(m: nat)
    | Unlock(m: nat)
    | Retry
    | InitQueue(i: nat, n: int)
    | Send(i: nat, msg: int, block: bool, front: bool)
    | Receive(i: nat, block: bool)
    | DisableScheduler
    | EnableScheduler

  /** When a call may be made. Calls that block or stop the current thread need one, and an enabled scheduler;
      a thread woken from a mutex retries before it sleeps elsewhere. A cancelled thread stands in no ring. */
  ghost predicate Enabled(s: State, c: Call) {
    match c
    case Create(t, _, _) => t != 0 && s.St(t) == Dead
    case Resume(t) => t != 0
    case Suspend(t) => t != 0 && (t == s.d.cur ==> s.a.resched <= 0)
    case Sleep(k) => MayBlock(s) && (k.WaitQ? || (k.JoinQ? && s.Live(k.t)))
    case Wakeup(k) => k.WaitQ? || k.JoinQ?
    case Yield => true
    case Exit(_) => s.d.cur != 0 && s.a.resched <= 0
    case Cancel(t) => t != 0 && (t == s.d.cur ==> s.a.resched <= 0) && (s.Live(t) ==> forall r :: !Ring(s, t, r))
    case Lock(m) => m != 0 && s.d.cur != 0 && (s.Owner(m) in {0, s.d.cur} || s.a.resched <= 0)
    case TryLock(m) => m != 0 && s.d.cur != 0
    case Unlock(m) => s.d.cur != 0
    case Retry => s.d.cur != 0 && s.Mutex(s.d.cur) != 0 && s.a.resched <= 0
    case InitQueue(i, n) => n <= 16 && s.Q(SendQ(i)) == [] && s.Q(RecvQ(i)) == []
    case Send(i, _, block, _) => block && s.Mq(i).used >= s.Mq(i).count ==> MayBlock(s)
    case Receive(i, block) => block && s.Mq(i).used == 0 ==> MayBlock(s)
    case DisableScheduler => true
    case EnableScheduler => true
  }

  ghost function Step(s: State, c: Call): State {
    match c
    case Create(t, p, detach) => SchedCalls.Create(s, t, p, detach)
    case Resume(t) => SchedCalls.Resume(s, t)
    case Suspend(t) => SchedCalls.Suspend(s, t)
    case Sleep(k) => SchedCalls.Sleep(s, k)
    case Wakeup(k) => if k.RunQ? then s else SchedCalls.Wakeup(s, k)
    case Yield => SchedCalls.Yield(s)
    case Exit(v) => SchedCalls.Exit(s, v)
    case Cancel(t) => SchedCalls.Cancel(s, t)
    case Lock(m) => SchedCalls.Lock(s, m)
    case TryLock(m) => SchedCalls.TryLock(s, m).0
    case Unlock(m) => SchedCalls.Unlock(s, m)
    case Retry => PendingLock(s)
    case InitQueue(i, n) => SchedCalls.InitQueue(s, i, n)
    case Send(i, msg, block, front) => SchedCalls.Send(s, i, msg, block, front).0
    case Receive(i, block) => SchedCalls.Receive(s, i, block).0
    case DisableScheduler => s.(a := s.a.(resched := s.a.resched + 1))
    case EnableScheduler => s.(a := s.a.(resched := s.a.resched - 1))
  }

  /** Every call of `calls`, made in order from `s`, is allowed where it is made. */
  ghost predicate Allowed(s: State, calls: seq<Call>)
    decreases |calls|
  {
    calls != [] ==> Enabled(s, calls[0]) && Allowed(Step(s, calls[0]), calls[1..])
  }

  ghost function Run(s: State, calls: seq<Call>): State
    decreases |calls|
  {
    if calls == [] then s else Run(Step(s, calls[0]), calls[1..])
  }

  // ----- the invariant

  lemma InitGood(t: nat)
    requires t != 0
    ensures Good(Init(t)) && Dispatched(Init(t))
  {
    var s := Init(t);
    forall k, u ensures Located(s, {}, k, u) {}
    forall k ensures QueueOk(s, k) {}
    forall u ensures ThreadOk(s, {}, u) && WaitOk(s, u, {}) {}
    forall m ensures MutexOk(s, {}, m) {}
    forall v ensures Inherits(s, v) { assert forall w :: Blocker(s, w) == 0; }
    assert OwnersOk(s.a.own, s.a.owner);
    assert MqOk(MsgQueue(0, 0, 0, []));
  }

  lemma CountGood(s: State, n: int)
    requires Good(s)
    ensures Good(s.(a := s.a.(resched := n))) && (Dispatched(s) ==> Dispatched(s.(a := s.a.(resched := n))))
  {
    var s' := s.(a := s.a.(resched := n));
    forall k, u ensures Located(s', {}, k, u) { assert Located(s, {}, k, u); }
    forall k ensures QueueOk(s', k) { assert QueueOk(s, k); }
    forall u ensures ThreadOk(s', {}, u) && WaitOk(s', u, {}) { assert ThreadOk(s, {}, u) && WaitOk(s, u, {}); }
    forall m ensures MutexOk(s', {}, m) { assert MutexOk(s, {}, m); }
    forall v ensures Inherits(s', v) {
      forall w ensures SameClaim(s, s', w, v) {}
      InheritsBy(s, s', v);
    }
    SameDispatch(s, s');
  }

  /** Every allowed call keeps the invariant and, with the scheduler enabled, the dispatching rule. */
  lemma StepGood(s: State, c: Call)
    requires Good(s) && Enabled(s, c)
    ensures Good(Step(s, c))
    ensures s.a.resched <= 0 && Dispatched(s) ==> Dispatched(Step(s, c))
  {
    hide Good, Dispatched, SchedCalls.Create, SchedCalls.Resume, SchedCalls.Suspend, SchedCalls.Sleep,
      SchedCalls.Wakeup, SchedCalls.Exit, SchedCalls.Cancel, SchedCalls.Lock, SchedCalls.TryLock,
      SchedCalls.Unlock, PendingLock, SchedCalls.InitQueue, SchedCalls.Send, SchedCalls.Receive;
    match c
    case Create(t, p, detach) => CreateGood(s, t, p, detach);
    case Resume(t) => ResumeGood(s, t);
    case Suspend(t) => SuspendGood(s, t);
    case Sleep(k) => SleepGood(s, k);
    case Wakeup(k) => WakeupGood(s, k);
    case Yield => YieldSettles(s);
    case Exit(v) => ExitGood(s, v);
    case Cancel(t) => CancelStep(s, t);
    case Lock(m) => LockGood(s, m);
    case TryLock(m) => TryLockGood(s, m);
    case Unlock(m) => UnlockGood(s, m);
    case Retry => PendingGood(s);
    case InitQueue(i, n) => InitQueueGood(s, i, n);
    case Send(i, msg, block, front) => SendGood(s, i, msg, block, front);
    case Receive(i, block) => ReceiveGood(s, i, block);
    case DisableScheduler => CountGood(s, s.a.resched + 1);
    case EnableScheduler => CountGood(s, s.a.resched - 1);
  }

  lemma CancelStep(s: State, t: nat)
    requires Good(s) && Enabled(s, Cancel(t))
    ensures Good(SchedCalls.Cancel(s, t)) && (s.a.resched <= 0 && Dispatched(s) ==> Dispatched(SchedCalls.Cancel(s, t)))
    ensures SchedCalls.Cancel(s, t).a.resched == s.a.resched
  {
    if s.Live(t) {
      CancelFaultsIff(s, t);
      CancelGood(s, t);
    } else {
      assert SchedCalls.Cancel(s, t) == s;
    }
  }

  lemma {:induction false} RunGood(s: State, calls: seq<Call>)
    requires Good(s) && Allowed(s, calls)
    ensures Good(Run(s, calls))
    decreases |calls|
  {
    if calls != [] {
      StepGood(s, calls[0]);
      RunGood(Step(s, calls[0]), calls[1..]);
    }
  }

  // ----- what the invariant means

  /** `c` is a chain of waiters: each thread waits for a mutex owned by the next. */
  ghost predicate WaitChain(s: State, c: seq<nat>) {
    |c| > 0 && forall i :: 0 < i < |c| ==> Waits(s, c, i)
  }

  ghost predicate Waits(s: State, c: seq<nat>, i: int)
    requires 0 < i < |c|
  {
    Blocker(s, c[i - 1]) == c[i] && c[i] != 0 && s.Susp(c[i]) == 0
  }

  /** Priority inheritance through chains of any length: an unsuspended owner is never less urgent than a thread
      that waits for it, directly or through other owners. */
  lemma {:induction false} ChainUrgency(s: State, c: seq<nat>)
    requires Good(s) && WaitChain(s, c)
    ensures s.Prio(c[|c| - 1]) <= s.Prio(c[0])
    decreases |c|
  {
    if |c| > 1 {
      var n := |c| - 1;
      forall i | 0 < i < n ensures Waits(s, c[..n], i) { assert Waits(s, c, i); }
      ChainUrgency(s, c[..n]);
      assert Waits(s, c, n);
      assert ThreadOk(s, {}, c[n - 1]) && MutexOk(s, {}, s.Queue(c[n - 1]).m) && Inherits(s, c[n]);
    }
  }

  /** A thread's priority is the least of its own and of those waiting for its mutexes; and the mutex queues are sorted,
      so that the code's scan of queue heads finds it. */
  lemma InheritanceHolds(s: State, t: nat)
    requires Good(s) && s.Live(t) && s.Susp(t) == 0
    ensures s.Prio(t) == Effective(s, t)
    ensures s.Prio(t) <= s.Base(t)
    ensures forall m, w :: m in s.Own(t) && w in s.Q(MutexQ(m)) ==> s.Prio(t) <= s.Prio(w)
    ensures s.Prio(t) == s.Base(t) || exists m, w :: m in s.Own(t) && w in s.Q(MutexQ(m)) && s.Prio(w) == s.Prio(t)
    ensures forall m :: Sorted(s.Q(MutexQ(m)), s.a.prio)
  {
    assert Inherits(s, t) && ThreadOk(s, {}, t) && ThreadOk(s, {}, 0);
    EffectiveIsMin(s, t, {});
    EffUnique(s, t, s.Prio(t), Effective(s, t));
    forall m, w | m in s.Own(t) && w in s.Q(MutexQ(m)) ensures s.Prio(t) <= s.Prio(w) {
      assert Located(s, {}, MutexQ(m), w) && ThreadOk(s, {}, w);
      assert Blocker(s, w) == t;
    }
    if s.Prio(t) != s.Base(t) {
      var w :| Blocker(s, w) == t && s.Prio(w) == s.Prio(t);
      var m := s.Queue(w).m;
      assert Located(s, {}, MutexQ(m), w) && ThreadOk(s, {}, w);
      assert m in s.Own(t) && w in s.Q(MutexQ(m));
    }
    forall m ensures Sorted(s.Q(MutexQ(m)), s.a.prio) { assert QueueOk(s, MutexQ(m)); }
  }

  /** The ready bitmap and the run queues: bit 31-p is set iff queue p is non-empty, and a thread stands in queue p
      exactly when it is ready, unsuspended and of priority p; nobody stands in two places. */
  lemma RunQueuesHold(s: State, p: nat)
    requires Good(s) && p < 32
    ensures 31 - p in s.d.bits <==> s.Q(RunQ(p)) != []
    ensures forall t :: t in s.Q(RunQ(p)) <==> s.Runnable(t) && s.Prio(t) == p
    ensures forall k, t :: t in s.Q(RunQ(p)) && t in s.Q(k) ==> k == RunQ(p)
    ensures NoDup(s.Q(RunQ(p)))
  {
    assert QueueOk(s, RunQ(p));
    forall t ensures t in s.Q(RunQ(p)) <==> s.Runnable(t) && s.Prio(t) == p {
      assert Located(s, {}, RunQ(p), t) && ThreadOk(s, {}, t);
    }
    forall k, t | t in s.Q(RunQ(p)) && t in s.Q(k) ensures k == RunQ(p) {
      assert Located(s, {}, RunQ(p), t) && Located(s, {}, k, t);
    }
  }

  // ----- over whole runs

  ghost predicate Untoggled(calls: seq<Call>) {
    forall i :: 0 <= i < |calls| ==> !calls[i].DisableScheduler? && !calls[i].EnableScheduler?
  }

  lemma StepKeepsCount(s: State, c: Call)
    requires Good(s) && Enabled(s, c) && !c.DisableScheduler? && !c.EnableScheduler?
    ensures Step(s, c).a.resched == s.a.resched
  {
    match c
    case Create(t, p, detach) => if !(0 <= p <= 31) { assert SchedCalls.Create(s, t, p, detach) == s; }
    case Resume(t) => ResumeGood(s, t);
    case Suspend(t) => SuspendGood(s, t);
    case Sleep(k) =>
    case Wakeup(k) =>
    case Yield =>
    case Exit(v) => ExitGood(s, v);
    case Cancel(t) => CancelStep(s, t);
    case Lock(m) => LockGood(s, m);
    case TryLock(m) =>
    case Unlock(m) => UnlockGood(s, m);
    case Retry => PendingGood(s);
    case InitQueue(i, n) =>
    case Send(i, msg, block, front) =>
    case Receive(i, block) =>
  }

  /** From start-up, with the scheduler never disabled, every allowed sequence of calls ends with priorities
      inherited, and with no ready thread more urgent than the running one. */
  lemma {:induction false} RunSettles(s: State, calls: seq<Call>)
    requires Good(s) && Dispatched(s) && s.a.resched <= 0 && Allowed(s, calls) && Untoggled(calls)
    ensures Good(Run(s, calls)) && Dispatched(Run(s, calls))
    decreases |calls|
  {
    if calls != [] {
      assert !calls[0].DisableScheduler? && !calls[0].EnableScheduler?;
      StepGood(s, calls[0]);
      StepKeepsCount(s, calls[0]);
      forall i | 0 <= i < |calls| - 1 ensures !calls[1..][i].DisableScheduler? && !calls[1..][i].EnableScheduler? {
        assert calls[1..][i] == calls[i + 1];
      }
      RunSettles(Step(s, calls[0]), calls[1..]);
    }
  }

  /** Priority inheritance after any allowed calls from start-up, through chains of waiters of any length. */
  lemma StartupInherits(t0: nat, calls: seq<Call>, t: nat, c: seq<nat>)
    requires t0 != 0 && Allowed(Init(t0), calls)
    ensures var s := Run(Init(t0), calls);
      && (s.Live(t) && s.Susp(t) == 0 ==> s.Prio(t) == Effective(s, t))
      && (WaitChain(s, c) ==> s.Prio(c[|c| - 1]) <= s.Prio(c[0]))
  {
    InitGood(t0);
    RunGood(Init(t0), calls);
    var s := Run(Init(t0), calls);
    if s.Live(t) && s.Susp(t) == 0 { InheritanceHolds(s, t); }
    if WaitChain(s, c) { ChainUrgency(s, c); }
  }

  /** Dispatch after any allowed calls from start-up: the ready word tells which run queues hold threads, each runnable
      thread is in the one of its priority, and as long as the scheduler was never disabled none of them is more
      urgent than the running thread. */
  lemma StartupDispatches(t0: nat, calls: seq<Call>, p: nat, t: nat)
    requires t0 != 0 && Allowed(Init(t0), calls) && p < 32
    ensures var s := Run(Init(t0), calls);
      && (31 - p in s.d.bits <==> s.Q(RunQ(p)) != [])
      && (t in s.Q(RunQ(p)) <==> s.Runnable(t) && s.Prio(t) == p)
      && (Untoggled(calls) && s.Runnable(t) ==>
         s.d.cur != 0 && s.St(s.d.cur) == Running && s.Prio(s.d.cur) <= s.Prio(t))
  {
    InitGood(t0);
    RunGood(Init(t0), calls);
    RunQueuesHold(Run(Init(t0), calls), p);
    if Untoggled(calls) { RunSettles(Init(t0), calls); }
  }
}
