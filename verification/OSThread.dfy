/** The scheduler in its own form: thread, mutex and queue fields updated in place, loops over linked queues.
    Each operation is proved to do what the corresponding function of `SchedCalls` says. */
module OSThread {
  import opened Lists
  import opened Links
  import opened Sched
  import opened SchedInv
  import opened SchedChain
  import opened SchedCalls
  import opened SchedKeep
  import opened SchedGood
  import opened SchedMutex
  import opened SchedExit
  import opened SchedHoldings
  import opened SchedRetry
  import opened SchedMessage
  import opened SchedMoves
  import SchedRing
  import R = SchedRuns
  import B = ReadyBits

  class Scheduler {
    // thread fields
    var state: map<nat, ThreadState>
    var queue: map<nat, Qid>
    var suspend: map<nat, int>
    var priority: map<nat, int>
    var base: map<nat, int>
    var detached: map<nat, bool>
    var val: map<nat, int>
    var waitingFor: map<nat, nat>
    // mutex fields
    var owner: map<nat, nat>
    var count: map<nat, int>
    // message queue fields
    var msgq: map<nat, MsgQueue>
    // links of threads in run and wait queues, of mutexes in their owners' lists, of threads in the active list
    const link: Queues<Qid>
    const owned: Queues<nat>
    const active: Queues<nat>
    // host-side state
    var currentThread: nat
    var runQueueBits: set<nat>
    var runQueueHint: bool
    var reschedule: int

    ghost predicate Valid()
      reads link, owned, active
    {
      && this as object != link && this as object !in {owned, active} && link as object !in {owned, active}
         && owned != active
      && link.Valid() && owned.Valid() && active.Valid() && active.q.Keys <= {0}
    }

    ghost function Attributes(): Attrs
      reads `suspend, `priority, `base, `detached, `val, `waitingFor, `owner, `count, `msgq, `reschedule, owned, active
    {
      Attrs(suspend, priority, base, detached, val, waitingFor, owner, count, owned.q, msgq, At(active.q, 0, []),
        reschedule)
    }

    ghost function Dispatching(): Dispatcher
      reads `state, `queue, `currentThread, `runQueueBits, `runQueueHint, link
    {
      Dispatcher(state, queue, link.q, currentThread, runQueueBits, runQueueHint, false)
    }

    ghost function Abs(): State
      reads this, link, owned, active
    {
      State(Attributes(), Dispatching())
    }

    constructor (t: nat)
      requires t != 0
      ensures Valid() && Abs() == Init(t)
      ensures fresh(link) && fresh(owned) && fresh(active)
    {
      hide AllLinked;
      link := new Queues<Qid>();
      owned := new Queues<nat>();
      active := new Queues<nat>();
      state, queue := map[t := Running], map[t := NoQ];
      suspend, priority, base := map[t := 0], map[t := 16], map[t := 16];
      detached, val, waitingFor := map[t := true], map[t := VAL_UNSET], map[t := 0];
      owner, count, msgq := map[], map[], map[];
      currentThread, runQueueBits, runQueueHint, reschedule := t, {}, false, 0;
      new;
      active.AddTail(0, t);
      assert Dispatching() == Init(t).d;
      hide Dispatching;
      assert At(active.q, 0, []) == [t];
      assert Attributes() == Init(t).a;
    }

    // ----- run queues

    method SetRun(t: nat)
      requires Valid() && t != 0 && Free(link.q, t)
      modifies `queue, `runQueueBits, `runQueueHint, link
      ensures Valid() && Abs() == Sched.SetRun(old(Abs()), t)
    {
      hide AllLinked;
      var p := At(priority, t, 0);
      queue := queue[t := RunQ(p)];
      link.AddTail(RunQ(p), t);
      runQueueBits := Mark(runQueueBits, p);
      runQueueHint := true;
    }

    method UnsetRun(t: nat)
      requires Valid() && t in Abs().Q(Abs().Queue(t))
      modifies `queue, `runQueueBits, link
      ensures Valid() && Abs() == Sched.UnsetRun(old(Abs()), t) && Free(link.q, t)
    {
      hide AllLinked;
      var k := At(queue, t, NoQ);
      var p := At(priority, t, 0);
      link.Remove(k, t);
      var n := link.Head(k);
      if n == 0 { runQueueBits := Unmark(runQueueBits, p); }
      queue := queue[t := NoQ];
    }

    /** Takes a waiter out of its queue and puts it back by priority. */
    method Requeue(t: nat, p: int)
      requires Valid() && t in Abs().Q(Abs().Queue(t)) && t != 0
      modifies `priority, link
      ensures Valid() && Abs() == Sched.Requeue(old(Abs()), t, p)
    {
      var k := At(queue, t, NoQ);
      link.Remove(k, t);
      priority := priority[t := p];
      link.AddPrio(k, t, priority);
    }

    method Rerun(t: nat, p: int)
      requires Valid() && t in Abs().Q(Abs().Queue(t)) && t != 0
      modifies `priority, `queue, `runQueueBits, `runQueueHint, link
      ensures Valid() && Abs() == Sched.Rerun(old(Abs()), t, p)
    {
      UnsetRun(t);
      priority := priority[t := p];
      SetRun(t);
    }

    // ----- priorities

    method GetEffectivePriority(t: nat) returns (p: int)
      requires Valid()
      ensures p == Effective(Abs(), t)
    {
      p := At(base, t, 0);
      var m := owned.Head(t);
      ghost var ms, i := At(owned.q, t, []), 0;
      assert Linked(ms, At(owned.head, t, 0), At(owned.tail, t, 0), owned.next, owned.prev) && 0 !in ms;
      while m != 0
        invariant 0 <= i <= |ms| && m == (if i < |ms| then ms[i] else 0)
        invariant p == Least(link.q, priority, ms[..i], At(base, t, 0))
        decreases |ms| - i
      {
        assert i < |ms| && ms[..i + 1][..i] == ms[..i];
        var blocked := link.Head(MutexQ(m));
        if blocked != 0 {
          var bp := At(priority, blocked, 0);
          if bp < p { p := bp; }
        }
        m := At(owned.next, m, 0);
        i := i + 1;
      }
      assert ms[..i] == ms;
    }

    method SetEffectivePriority(t: nat, p: int) returns (u: nat)
      requires Valid() && t != 0
      requires Abs().St(t) == Ready || Abs().St(t) == Waiting ==> t in Abs().Q(Abs().Queue(t)) && Abs().Queue(t) != NoQ
      modifies `priority, `queue, `runQueueBits, `runQueueHint, link
      ensures Valid() && (Abs(), u) == SetEffective(old(Abs()), t, p)
    {
      u := 0;
      match At(state, t, Dead)
      case Ready =>
        Rerun(t, p);
      case Waiting =>
        Requeue(t, p);
        var m := At(waitingFor, t, 0);
        if m != 0 { u := At(owner, m, 0); }
      case Running =>
        runQueueHint := true;
        priority := priority[t := p];
      case _ =>
    }

    /** Restores inheritance along the chain of owners that starts at `thread`. */
    method UpdatePriority(thread: nat, ghost X: set<nat>)
      requires Valid() && UpdateReady(Abs(), thread, X) && !Update(Abs(), thread, X).d.fault
      modifies `priority, `queue, `runQueueBits, `runQueueHint, link
      ensures Valid() && Abs() == Update(old(Abs()), thread, X)
    {
      hide AllLinked;
      var t := thread;
      while true
        invariant Valid() && UpdateReady(Abs(), t, X) && Update(Abs(), t, X) == Update(old(Abs()), thread, X)
        decreases Reach(Abs(), t)
      {
        UpdateUnfold(Abs(), t, X);
        if 0 < At(suspend, t, 0) { break; }
        var p := GetEffectivePriority(t);
        if At(priority, t, 0) == p { break; }
        StandsInQueue(Abs(), t, X);
        t := SetEffectivePriority(t, p);
        if t == 0 { break; }
      }
    }

    /** Raises `thread`, and every owner down its chain, to urgency `p` at least. */
    method PromoteThread(thread: nat, p: nat)
      requires Valid() && WF(Abs(), {}) && Abs().Live(thread) && thread != 0 && p < 32
      modifies `priority, `queue, `runQueueBits, `runQueueHint, link
      ensures Valid() && Abs() == Promote(old(Abs()), thread, p)
    {
      hide AllLinked;
      var t := thread;
      while true
        invariant Valid() && WF(Abs(), {}) && Abs().Live(t) && t != 0
        invariant Promote(Abs(), t, p) == Promote(old(Abs()), thread, p)
        decreases |Above(Abs().a.prio, p)|
      {
        if 0 < At(suspend, t, 0) { break; }
        if At(priority, t, 0) <= p { break; }
        PromoteMoves(Abs(), t, p);
        t := SetEffectivePriority(t, p);
        if t == 0 { break; }
      }
    }

    // ----- dispatch

    /** The head of the most urgent run queue takes the processor, if any run queue holds a thread. */
    method Dispatch(ghost X: set<nat>)
      requires Valid() && WF(Abs(), X)
      modifies `state, `queue, `runQueueBits, `runQueueHint, `currentThread, link
      ensures Valid() && Abs() == SchedCalls.Dispatch(old(Abs()))
    {
      hide AllLinked;
      MostUrgent(Abs(), X);
      if runQueueBits == {} { return; }
      Take(B.Cntlzw(runQueueBits));
    }

    method Take(p: int)
      requires Valid() && Abs().Q(RunQ(p)) != []
      modifies `state, `queue, `runQueueBits, `runQueueHint, `currentThread, link
      ensures Valid() && Abs() == SchedCalls.Take(old(Abs()), p)
    {
      hide AllLinked, Attributes;
      var n := link.RemoveHead(RunQ(p));
      var h := link.Head(RunQ(p));
      if h == 0 { runQueueBits := Unmark(runQueueBits, p); }
      MakeCurrent(n);
    }

    method MakeCurrent(n: nat)
      requires Valid()
      modifies `state, `queue, `runQueueHint, `currentThread
      ensures Valid() && Attributes() == old(Attributes())
      ensures Dispatching() ==
        old(Dispatching()).(hint := false, queue := old(queue)[n := NoQ], st := old(state)[n := Running], cur := n)
    {
      hide AllLinked, Attributes;
      runQueueHint, queue, state, currentThread := false, queue[n := NoQ], state[n := Running], n;
    }

    method SelectThread(yielding: bool, ghost X: set<nat>)
      requires Valid() && WF(Abs(), X) && (reschedule <= 0 ==> forall t :: t in X ==> !Abs().Live(t))
      modifies `state, `queue, `runQueueBits, `runQueueHint, `currentThread, link
      ensures Valid() && Abs() == Select(old(Abs()), yielding)
    {
      hide AllLinked, WF, SchedCalls.Dispatch;
      ghost var s := Abs();
      if 0 < reschedule { return; }
      if currentThread != 0 && At(state, currentThread, Dead) == Running {
        if !yielding {
          var p := B.Cntlzw(runQueueBits);
          if At(priority, currentThread, 0) <= p { return; }
        }
        StandsInQueue(s, currentThread, X);
        PreemptWF(s, X);
        state := state[currentThread := Ready];
        SetRun(currentThread);
        currentThread := 0;
        assert Abs() == Preempt(s);
        hide Preempt, Sched.SetRun;
      } else {
        IdleWF(s, X);
        currentThread := 0;
        assert Abs() == s.PutCur(0);
      }
      hide Attributes, Dispatching;
      Dispatch(X);
    }

    method Reschedule(ghost X: set<nat>)
      requires Valid() && WF(Abs(), X) && (reschedule <= 0 ==> forall t :: t in X ==> !Abs().Live(t))
      modifies `state, `queue, `runQueueBits, `runQueueHint, `currentThread, link
      ensures Valid() && Abs() == SchedCalls.Reschedule(old(Abs()))
    {
      if !runQueueHint { return; }
      SelectThread(false, X);
    }

    method WakeupThread(k: Qid, ghost X: set<nat>)
      requires Valid() && WF(Abs(), X) && !k.RunQ? && (k.MutexQ? ==> Abs().Owner(k.m) == 0)
      requires forall t :: t in X ==> !Abs().Live(t)
      modifies `state, `queue, `runQueueBits, `runQueueHint, `currentThread, link
      ensures Valid() && Abs() == Wakeup(old(Abs()), k)
    {
      hide AllLinked, WF, Attributes, Dispatching, WakeOne, SchedCalls.Reschedule;
      var n := FirstWaiter(k);
      while n != 0
        invariant Valid() && WF(Abs(), X) && (k.MutexQ? ==> Abs().Owner(k.m) == 0)
        invariant forall t :: t in X ==> !Abs().Live(t)
        invariant n == if Abs().Q(k) == [] then 0 else Abs().Q(k)[0]
        invariant n == 0 <==> Abs().Q(k) == []
        invariant WakeAll(Abs(), k) == WakeAll(old(Abs()), k)
        decreases |Abs().Q(k)|
      {
        ghost var s := Abs();
        WakeOneWF(s, k, X);
        WakeOneCalm(s, k, X);
        assert forall t :: t in X ==> Calm(s, WakeOne(s, k), t);
        WakeHead(k);
        n := FirstWaiter(k);
      }
      Reschedule(X);
    }

    method FirstWaiter(k: Qid) returns (n: nat)
      requires Valid()
      ensures n == if Abs().Q(k) == [] then 0 else Abs().Q(k)[0]
      ensures n == 0 <==> Abs().Q(k) == []
    {
      n := link.Head(k);
    }

    method WakeHead(k: Qid)
      requires Valid() && Abs().Q(k) != []
      modifies `state, `queue, `runQueueBits, `runQueueHint, link
      ensures Valid() && Abs() == WakeOne(old(Abs()), k)
    {
      var t := link.RemoveHead(k);
      state := state[t := Ready];
      if !(0 < At(suspend, t, 0)) { SetRun(t); }
    }

    /** Releases the mutexes of a thread that has died. */
    method UnlockAllMutex(d: nat)
      requires Valid() && Dying(Abs(), d) && (CurOk(Abs()) || Abs().a.resched <= 0)
      modifies `state, `queue, `runQueueBits, `runQueueHint, `currentThread, link, `count, `owner, owned
      ensures Valid() && Abs() == UnlockAll(old(Abs()), d)
    {
      hide AllLinked, Dying, WF, CurOk, Attributes, Dispatching, Wakeup;
      var m := FirstOwned(d);
      while m != 0
        invariant Valid() && Dying(Abs(), d) && (CurOk(Abs()) || Abs().a.resched <= 0)
        invariant m == if Abs().Own(d) == [] then 0 else Abs().Own(d)[0]
        invariant m == 0 <==> Abs().Own(d) == []
        invariant UnlockAll(Abs(), d) == UnlockAll(old(Abs()), d)
        decreases |Abs().Own(d)|
      {
        UnlockStep(Abs(), d);
        m := DisownHead(d);
        WakeupThread(MutexQ(m), {d});
        m := FirstOwned(d);
      }
    }

    method FirstOwned(d: nat) returns (m: nat)
      requires Valid()
      ensures m == if Abs().Own(d) == [] then 0 else Abs().Own(d)[0]
      ensures m == 0 <==> Abs().Own(d) == []
    {
      m := owned.Head(d);
    }

    method DisownHead(d: nat) returns (m: nat)
      requires Valid() && Abs().Own(d) != []
      modifies `count, `owner, owned
      ensures Valid() && m == old(Abs()).Own(d)[0] && Abs() == Disown(old(Abs()), d)
    {
      hide AllLinked;
      m := owned.RemoveHead(d);
      count := count[m := 0];
      owner := owner[m := 0];
    }

    // ----- threads

    method CreateThread(t: nat, p: int, detach: bool) returns (ok: bool)
      requires Valid() && Good(Abs()) && R.Enabled(Abs(), R.Call.Create(t, p, detach))
      modifies this, link, owned, active
      ensures Valid() && Abs() == Create(old(Abs()), t, p, detach) && (ok <==> 0 <= p <= 31)
    {
      if p < 0 || p > 31 { return false; }
      StandsInQueue(Abs(), t, {});
      assert Free(active.q, t) by { assert forall k :: At(active.q, k, []) != [] ==> k == 0; }
      NewThread(t, p, detach);
      ok := true;
    }

    method NewThread(t: nat, p: int, detach: bool)
      requires Valid() && t != 0 && Free(link.q, t) && Free(active.q, t)
      modifies this, link, owned, active
      ensures Valid() && Abs() == Created(old(Abs()), t, p, detach)
    {
      hide AllLinked, Attributes, Created;
      ghost var a, d := Attributes(), Dispatching();
      InitThread(t, p, detach);
      SetReady(t);
      LinkThread(t);
      CreatedOf(State(a, d), t, p, detach);
    }

    method InitThread(t: nat, p: int, detach: bool)
      requires Valid()
      modifies `base, `priority, `suspend, `detached, `val, `waitingFor
      ensures Valid() && Attributes() == NewAttrs(old(Attributes()), t, p, detach)
    {
      hide AllLinked;
      SetPriorities(t, p);
      detached, val, waitingFor := detached[t := detach], val[t := VAL_UNSET], waitingFor[t := 0];
    }

    method SetPriorities(t: nat, p: int)
      requires Valid()
      modifies `base, `priority, `suspend
      ensures var a := old(Attributes());
        Valid() && Attributes() == a.(susp := a.susp[t := 1], prio := a.prio[t := p], base := a.base[t := p])
    {
      hide AllLinked;
      base, priority, suspend := base[t := p], priority[t := p], suspend[t := 1];
    }

    method SetReady(t: nat)
      requires Valid()
      modifies `state, `queue
      ensures Valid() && Attributes() == old(Attributes())
      ensures Dispatching() ==
        old(Dispatching()).(st := old(Dispatching()).st[t := Ready], queue := old(Dispatching()).queue[t := NoQ])
    {
      hide AllLinked, Attributes;
      state, queue := state[t := Ready], queue[t := NoQ];
    }

    /** A new thread stands in no queue, owns nothing, and is the last of the active list. */
    method LinkThread(t: nat)
      requires Valid() && t != 0 && Free(link.q, t) && Free(active.q, t)
      modifies link, owned, active
      ensures Valid()
      ensures Attributes() == Listed(old(Attributes()), t)
      ensures Dispatching() == old(Dispatching()).(q := old(Dispatching()).q[JoinQ(t) := []])
    {
      hide AllLinked;
      link.Unlink(t);
      owned.Clear(t);
      link.Clear(JoinQ(t));
      active.AddTail(0, t);
    }

    /** Adds `t` to queue `k`, by priority. */
    method ParkIn(k: Qid, t: nat)
      requires Valid() && t != 0 && Free(link.q, t) && Abs().Queue(t) == k
      modifies link
      ensures Valid() && Abs() == Park(old(Abs()), t)
    {
      link.AddPrio(k, t, priority);
    }

    method Sleep(k: Qid)
      requires Valid() && WF(Abs(), {}) && MaySleep(Abs(), k)
      modifies `state, `queue, `runQueueBits, `runQueueHint, `currentThread, link
      ensures Valid() && Abs() == SchedCalls.Sleep(old(Abs()), k)
    {
      hide AllLinked;
      ghost var s := Abs();
      var t := currentThread;
      StandsInQueue(s, t, {});
      SleepWF(s, k);
      state := state[t := Waiting];
      queue := queue[t := k];
      ParkIn(k, t);
      runQueueHint := true;
      assert Abs() == Park(s.PutSt(t, Waiting).PutQueue(t, k), t).Hint();
      Reschedule({});
    }

    method Yield()
      requires Valid() && Good(Abs())
      modifies `state, `queue, `runQueueBits, `runQueueHint, `currentThread, link
      ensures Valid() && Abs() == SchedCalls.Yield(old(Abs()))
    {
      SelectThread(true, {});
    }

    /** Carries a waiter's changed priority to the owner of the mutex it waits for, if any. */
    method NotifyOwner(t: nat, ghost X: set<nat>)
      requires Valid() && !Notify(Abs(), t, X).d.fault
      modifies `priority, `queue, `runQueueBits, `runQueueHint, link
      ensures Valid() && Abs() == Notify(old(Abs()), t, X)
    {
      hide AllLinked;
      var m := At(waitingFor, t, 0);
      if m != 0 { UpdatePriority(At(owner, m, 0), X); }
    }

    method ResumeThread(t: nat) returns (was: int)
      requires Valid() && Good(Abs()) && R.Enabled(Abs(), R.Call.Resume(t))
      modifies `suspend, `priority, `state, `queue, `runQueueBits, `runQueueHint, `currentThread, link
      ensures Valid() && Abs() == Resume(old(Abs()), t) && was == old(Abs()).Susp(t)
    {
      hide AllLinked, Good, WF, Restart, MayRestart, SchedCalls.Reschedule;
      ghost var s := Abs();
      was := At(suspend, t, 0);
      suspend := suspend[t := was - 1];
      if was - 1 < 0 {
        assert s.a.susp[t := was - 1][t := 0] == s.a.susp[t := 0];
        suspend := suspend[t := 0];
      } else if was - 1 == 0 {
        RestartMoves(s, t);
        assert Abs() == s.PutSusp(t, 0);
        hide Attributes, Dispatching;
        RestartThread(t);
        Reschedule({});
      }
    }

    method RestartThread(t: nat)
      requires Valid() && MayRestart(Abs(), t)
      modifies `priority, `queue, `runQueueBits, `runQueueHint, link
      ensures Valid() && Abs() == Restart(old(Abs()), t)
    {
      hide AllLinked;
      match At(state, t, Dead)
      case Ready =>
        var p := GetEffectivePriority(t);
        priority := priority[t := p];
        SetRun(t);
      case Waiting =>
        ReparkThread(t);
        NotifyOwner(t, {});
      case _ =>
    }

    /** Puts a waiter back into its queue at its effective priority. */
    method ReparkThread(t: nat)
      requires Valid() && t != 0 && t in Abs().Q(Abs().Queue(t))
      modifies `priority, link
      ensures Valid() && Abs() == Reparked(old(Abs()), t)
    {
      hide AllLinked;
      var k := At(queue, t, NoQ);
      link.Remove(k, t);
      var p := GetEffectivePriority(t);
      priority := priority[t := p];
      ParkIn(k, t);
    }

    method SuspendThread(t: nat) returns (was: int)
      requires Valid() && Good(Abs()) && R.Enabled(Abs(), R.Call.Suspend(t))
      modifies `suspend, `priority, `state, `queue, `runQueueBits, `runQueueHint, `currentThread, link
      ensures Valid() && Abs() == Suspend(old(Abs()), t) && was == old(Abs()).Susp(t)
    {
      hide AllLinked, Good, WF, Halt, MayHalt, SchedCalls.Reschedule;
      ghost var s := Abs();
      was := At(suspend, t, 0);
      suspend := suspend[t := was + 1];
      if was == 0 {
        HaltMoves(s, t);
        assert Abs() == s.PutSusp(t, 1);
        hide Attributes, Dispatching;
        HaltThread(t);
        Reschedule({});
      }
    }

    method HaltThread(t: nat)
      requires Valid() && MayHalt(Abs(), t)
      modifies `priority, `state, `queue, `runQueueBits, `runQueueHint, link
      ensures Valid() && Abs() == Halt(old(Abs()), t)
    {
      hide AllLinked;
      match At(state, t, Dead)
      case Running =>
        runQueueHint := true;
        state := state[t := Ready];
      case Ready =>
        UnsetRun(t);
      case Waiting =>
        SinkThread(t);
        NotifyOwner(t, {});
      case _ =>
    }

    /** Puts a waiter at the tail of its queue, at priority 32. */
    method SinkThread(t: nat)
      requires Valid() && t != 0 && t in Abs().Q(Abs().Queue(t))
      modifies `priority, link
      ensures Valid() && Abs() == Sunk(old(Abs()), t)
    {
      hide AllLinked;
      var k := At(queue, t, NoQ);
      link.Remove(k, t);
      priority := priority[t := 32];
      link.AddTail(k, t);
    }

    method EvictThread(t: nat)
      requires Valid() && MayEvict(Abs(), t)
      modifies `priority, `queue, `runQueueBits, `runQueueHint, link
      ensures Valid() && Abs() == Evict(old(Abs()), t)
    {
      hide AllLinked;
      match At(state, t, Dead)
      case Ready =>
        if !(0 < At(suspend, t, 0)) { UnsetRun(t); }
      case Running =>
        runQueueHint := true;
      case Waiting =>
        UnplaceThread(t);
        if !(0 < At(suspend, t, 0)) { NotifyOwner(t, {t}); }
    }

    method UnplaceThread(t: nat)
      requires Valid() && t in Abs().Q(Abs().Queue(t))
      modifies `queue, link
      ensures Valid() && Abs() == Unplaced(old(Abs()), t)
    {
      hide AllLinked;
      link.Remove(At(queue, t, NoQ), t);
      queue := queue[t := NoQ];
    }

    method RetireThread(t: nat)
      requires Valid() && t in Abs().a.active
      modifies `state, active
      ensures Valid() && Abs() == Retire(old(Abs()), t)
    {
      hide AllLinked;
      if At(detached, t, false) {
        active.Remove(0, t);
        state := state[t := Dead];
      } else {
        state := state[t := Moribund];
      }
    }

    /** The thread dies: its mutexes are released and its joiners woken. */
    method BuryThread(t: nat)
      requires Valid() && t in Abs().a.active
      requires var s := Retire(Abs(), t); Dying(s, t) && (CurOk(s) || s.a.resched <= 0)
      modifies `state, `queue, `runQueueBits, `runQueueHint, `currentThread, link, `count, `owner, owned, active
      ensures Valid() && Abs() == Buried(old(Abs()), t)
      ensures WF(Abs(), {t}) && !Abs().Live(t) && WF(Abs().Hint(), {t})
    {
      hide AllLinked, WF, Dying, CurOk, Retire, UnlockAll, Wakeup;
      BuryMoves(Retire(Abs(), t), t);
      RetireThread(t);
      UnlockAllMutex(t);
      WakeupThread(JoinQ(t), {t});
    }

    method CancelThread(t: nat)
      requires Valid() && Good(Abs()) && R.Enabled(Abs(), R.Call.Cancel(t))
      modifies `priority, `state, `queue, `runQueueBits, `runQueueHint, `currentThread, link, `count, `owner, owned,
        active
      ensures Valid() && Abs() == Cancel(old(Abs()), t)
    {
      hide AllLinked, WF, Good, Dying, CurOk;
      var x := At(state, t, Dead);
      if x == Dead || x == Moribund { return; }
      SchedRing.CancelFaultsIff(Abs(), t);
      EvictMoves(Abs(), t);
      KillThread(t);
    }

    method KillThread(t: nat)
      requires Valid() && MayEvict(Abs(), t)
      requires var s1 := Evict(Abs(), t); var s2 := Retire(s1, t);
        t in s1.a.active && Dying(s2, t) && (CurOk(s2) || s2.a.resched <= 0)
      modifies `priority, `state, `queue, `runQueueBits, `runQueueHint, `currentThread, link, `count, `owner, owned,
        active
      ensures Valid() && Abs() == SchedCalls.Reschedule(Buried(Evict(old(Abs()), t), t))
    {
      hide AllLinked, WF, Dying, CurOk, Evict, Buried, SchedCalls.Reschedule, Attributes, Dispatching;
      EvictThread(t);
      BuryThread(t);
      Reschedule({t});
    }

    method ExitThread(v: int)
      requires Valid() && Good(Abs()) && R.Enabled(Abs(), R.Call.Exit(v))
      modifies this, link, owned, active
      ensures Valid() && Abs() == Exit(old(Abs()), v)
    {
      hide AllLinked, WF, Good, Dying, CurOk, Buried, Select, LeaveValue, Exit, Retire;
      var t := currentThread;
      ExitMoves(Abs(), v);
      hide Attributes, Dispatching;
      RecordValue(v);
      BuryThread(t);
      RaiseHint();
      SelectThread(false, {t});
    }

    method RaiseHint()
      requires Valid()
      modifies `runQueueHint
      ensures Valid() && Abs() == old(Abs()).Hint()
    {
      runQueueHint := true;
    }

    /** A thread that is not detached leaves its exit value for a joiner. */
    method RecordValue(v: int)
      requires Valid()
      modifies `val
      ensures Valid() && Abs() == LeaveValue(old(Abs()), v)
    {
      hide AllLinked;
      if !At(detached, currentThread, false) { val := val[currentThread := v]; }
    }

    // ----- mutexes

    method LockMutex(m: nat)
      requires Valid() && Good(Abs()) && R.Enabled(Abs(), R.Call.Lock(m))
      modifies this, link, owned
      ensures Valid() && Abs() == Lock(old(Abs()), m)
    {
      hide AllLinked;
      var t := currentThread;
      var o := At(owner, m, 0);
      if o == 0 {
        AcquireMutex(m);
      } else if o == t {
        count := count[m := At(count, m, 0) + 1];
      } else {
        WaitForMutex(m);
      }
    }

    /** The mutex is another thread's: its owner is promoted, and the running thread parks. */
    method WaitForMutex(m: nat)
      requires Valid() && Good(Abs()) && R.Enabled(Abs(), R.Call.Lock(m)) && At(owner, m, 0) !in {0, currentThread}
      modifies `waitingFor, `state, `priority, `queue, `runQueueBits, `runQueueHint, `currentThread, link
      ensures Valid() && Abs() == Lock(old(Abs()), m)
    {
      hide AllLinked, Good, MaySleep, CurOk;
      ghost var s := Abs();
      LockMoves(s, m);
      var t, o := currentThread, At(owner, m, 0);
      var p := At(priority, t, 0);
      waitingFor := waitingFor[t := m];
      assert Abs() == s.PutMutex(t, m);
      hide Attributes, Dispatching, Promote, SchedCalls.Sleep;
      PromoteThread(o, p);
      Sleep(MutexQ(m));
    }

    method AcquireMutex(m: nat)
      requires Valid() && OwnersOk(owned.q, owner) && m != 0 && At(owner, m, 0) == 0
      modifies `owner, `count, owned
      ensures Valid() && Abs() == Acquire(old(Abs()), m)
    {
      hide AllLinked;
      owner := owner[m := currentThread];
      count := count[m := At(count, m, 0) + 1];
      owned.AddTail(currentThread, m);
    }

    method TryLockMutex(m: nat) returns (ok: bool)
      requires Valid() && Good(Abs()) && R.Enabled(Abs(), R.Call.TryLock(m))
      modifies `owner, `count, owned
      ensures Valid() && (Abs(), ok) == TryLock(old(Abs()), m)
    {
      hide AllLinked;
      var o := At(owner, m, 0);
      if o == 0 {
        AcquireMutex(m);
        ok := true;
      } else if o == currentThread {
        count := count[m := At(count, m, 0) + 1];
        ok := true;
      } else {
        ok := false;
      }
    }

    method UnlockMutex(m: nat)
      requires Valid() && Good(Abs()) && R.Enabled(Abs(), R.Call.Unlock(m))
      modifies this, link, owned
      ensures Valid() && Abs() == Unlock(old(Abs()), m)
    {
      hide AllLinked, WF, Good;
      if At(owner, m, 0) != currentThread { return; }
      var c := At(count, m, 0) - 1;
      if c != 0 {
        count := count[m := c];
        return;
      }
      UnlockMoves(Abs(), m);
      hide Release, Wakeup;
      ReleaseMutex(m);
      WakeupThread(MutexQ(m), {});
    }

    /** The last unlock, up to the waking of waiters. */
    method ReleaseMutex(m: nat)
      requires Valid() && m in Abs().Own(currentThread)
      modifies `count, `owner, `priority, owned
      ensures Valid() && Abs() == Release(old(Abs()), m)
    {
      assert Release(Abs(), m) == Lowered(Unowned(Abs(), m), currentThread);
      hide AllLinked, Attributes, Dispatching, Release, Lowered, Unowned;
      var t := currentThread;
      Disinherit(t, m);
      LowerPriority(t);
    }

    method Disinherit(t: nat, m: nat)
      requires Valid() && t == currentThread && m in Abs().Own(t)
      modifies `count, `owner, owned
      ensures Valid() && Abs() == Unowned(old(Abs()), m)
    {
      hide AllLinked;
      count := count[m := 0];
      owned.Remove(t, m);
      owner := owner[m := 0];
    }

    method LowerPriority(t: nat)
      requires Valid()
      modifies `priority
      ensures Valid() && Abs() == Lowered(old(Abs()), t)
    {
      hide AllLinked;
      if At(priority, t, 0) < At(base, t, 0) {
        var p := GetEffectivePriority(t);
        priority := priority[t := p];
      }
    }

    /** The retry of a thread woken from a mutex queue, and the restoring of a saved lock count. */
    method RetryLock()
      requires Valid() && Good(Abs()) && R.Enabled(Abs(), R.Call.Retry)
      modifies this, link, owned
      ensures Valid() && Abs() == PendingLock(old(Abs()))
    {
      hide AllLinked, Good, Retry;
      RetryVal(Abs());
      var t := currentThread;
      var m, saved := At(waitingFor, t, 0), At(val, t, 0);
      LockAgain();
      if saved > 0 && At(owner, m, 0) == t && At(count, m, 0) == 1 { RestoreCount(t, m, saved); }
    }

    method LockAgain()
      requires Valid() && Good(Abs()) && R.Enabled(Abs(), R.Call.Retry)
      modifies this, link, owned
      ensures Valid() && Abs() == Retry(old(Abs()))
    {
      hide AllLinked, Good, Lock;
      ghost var s := Abs();
      ForgetMutex(s);
      var t, m := currentThread, At(waitingFor, currentThread, 0);
      waitingFor := waitingFor[t := 0];
      assert Abs() == s.PutMutex(t, 0);
      hide Attributes, Dispatching;
      LockMutex(m);
    }

    method RestoreCount(t: nat, m: nat, saved: int)
      requires Valid() && saved == At(val, t, 0)
      modifies `count, `val
      ensures Valid() && Abs() == Restore(old(Abs()), t, m)
    {
      hide AllLinked;
      count := count[m := ToInt32(saved)];
      val := val[t := VAL_UNSET];
    }

    /** Lets every thread that was woken from a mutex queue and gets to run try again. */
    method ProcessPendingLocks()
      requires Valid() && Good(Abs()) && reschedule <= 0
      modifies this, link, owned
      ensures Valid() && Good(old(Abs())) && Abs() == Process(old(Abs()))
    {
      hide AllLinked, Good, PendingLock;
      ghost var s := Abs();
      while currentThread != 0 && At(waitingFor, currentThread, 0) != 0 && At(state, currentThread, Dead) == Running
        invariant Valid() && Good(Abs()) && reschedule <= 0 && Process(Abs()) == Process(s)
        decreases |Pending(Abs())|
      {
        ghost var now := Abs();
        PendingGood(now);
        PendingShrinks(now);
        assert Pends(now) && Process(now) == Process(PendingLock(now));
        RetryLock();
      }
    }

    // ----- message queues

    method InitMessageQueue(k: nat, n: int)
      requires Valid() && Good(Abs()) && R.Enabled(Abs(), R.Call.InitQueue(k, n))
      modifies `msgq, link
      ensures Valid() && Abs() == InitQueue(old(Abs()), k, n)
    {
      hide AllLinked, WF, Good;
      link.Clear(SendQ(k));
      link.Clear(RecvQ(k));
      msgq := msgq[k := MsgQueue(n, 0, 0, seq(16, _ => 0))];
    }

    method SendMessage(k: nat, msg: int, block: bool) returns (ok: bool)
      requires Valid() && Good(Abs()) && R.Enabled(Abs(), R.Call.Send(k, msg, block, false))
      modifies `msgq, `state, `queue, `runQueueBits, `runQueueHint, `currentThread, link
      ensures Valid() && (Abs(), ok) == Send(old(Abs()), k, msg, block, false)
    {
      hide AllLinked, Good, WF, MaySleep, Wakeup, SchedCalls.Sleep;
      SendMoves(Abs(), k, msg, block, false);
      var u := At(msgq, k, MsgQueue(0, 0, 0, []));
      if u.count <= u.used {
        if block { Sleep(SendQ(k)); }
        return false;
      }
      var last := Rem(u.first + u.used, u.count);
      msgq := msgq[k := u.(slot := Put(u.slot, last, msg), used := u.used + 1)];
      WakeupThread(RecvQ(k), {});
      ok := true;
    }

    method JamMessage(k: nat, msg: int, block: bool) returns (ok: bool)
      requires Valid() && Good(Abs()) && R.Enabled(Abs(), R.Call.Send(k, msg, block, true))
      modifies `msgq, `state, `queue, `runQueueBits, `runQueueHint, `currentThread, link
      ensures Valid() && (Abs(), ok) == Send(old(Abs()), k, msg, block, true)
    {
      hide AllLinked, Good, WF, MaySleep, Wakeup, SchedCalls.Sleep;
      SendMoves(Abs(), k, msg, block, true);
      var u := At(msgq, k, MsgQueue(0, 0, 0, []));
      if u.count <= u.used {
        if block { Sleep(SendQ(k)); }
        return false;
      }
      var first := Rem(u.first + u.count - 1, u.count);
      msgq := msgq[k := u.(slot := Put(u.slot, first, msg), first := first, used := u.used + 1)];
      WakeupThread(RecvQ(k), {});
      ok := true;
    }

    method ReceiveMessage(k: nat, block: bool) returns (msg: int, ok: bool)
      requires Valid() && Good(Abs()) && R.Enabled(Abs(), R.Call.Receive(k, block))
      modifies `msgq, `state, `queue, `runQueueBits, `runQueueHint, `currentThread, link
      ensures Valid() && (Abs(), msg, ok) == Receive(old(Abs()), k, block)
    {
      hide AllLinked, Good, WF, MaySleep, Wakeup, SchedCalls.Sleep;
      ReceiveMoves(Abs(), k, block);
      var u := At(msgq, k, MsgQueue(0, 0, 0, []));
      if u.used == 0 {
        if block { Sleep(RecvQ(k)); }
        return 0, false;
      }
      msg, ok := Message(u), true;
      msgq := msgq[k := u.(first := Rem(u.first + 1, u.count), used := u.used - 1)];
      WakeupThread(SendQ(k), {});
    }

    method DisableScheduler() returns (was: int)
      requires Valid()
      modifies `reschedule
      ensures Valid() && Abs() == R.Step(old(Abs()), R.Call.DisableScheduler) && was == old(reschedule)
    {
      was := reschedule;
      reschedule := reschedule + 1;
    }

    method EnableScheduler() returns (was: int)
      requires Valid()
      modifies `reschedule
      ensures Valid() && Abs() == R.Step(old(Abs()), R.Call.EnableScheduler) && was == old(reschedule)
    {
      was := reschedule;
      reschedule := reschedule - 1;
    }
  }
}
