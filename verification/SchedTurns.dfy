/** Whose turn it is: who runs after a call, in which order the ready threads of one priority get the processor, and
    where in its queue a thread parks. */
module SchedTurns {
  import opened Lists
  import opened Sched
  import opened SchedInv
  import opened SchedChain
  import B = ReadyBits
  import C = SchedCalls
  import opened SchedKeep
  import opened SchedGood
  import opened SchedSuspend
  import opened SchedMutex
  import opened SchedMessage
  import opened SchedMoves
  import opened SchedRecords
  import opened SchedStands
  import opened SchedRuns

  /** Those of `l` that are not suspended and have priority `p`, in the order of `l`. */
  function Fit(a: Attrs, l: seq<nat>, p: int): seq<nat> {
    if l == [] then []
    else (if At(a.susp, l[0], 0) <= 0 && At(a.prio, l[0], 0) == p then [l[0]] else []) + Fit(a, l[1..], p)
  }

  /** The threads ready at priority `p` in state `s`, with the arrivals `l` behind them. */
  function Line(s: State, a: Attrs, l: seq<nat>, p: int): seq<nat> {
    s.Q(RunQ(p)) + Fit(a, l, p)
  }

  ghost predicate NoneBefore(s: State, a: Attrs, l: seq<nat>, q: int) {
    forall p :: p < q ==> Line(s, a, l, p) == []
  }

  /** The first in line at priority `p` takes the processor; thread `t`, if any, falls behind those of its own
      priority. All the others stand as they stood. */
  ghost predicate Hands(s: State, l: seq<nat>, t: nat, p: int, s': State) {
    && Line(s, s'.a, l, p) != [] && s'.d.cur == Line(s, s'.a, l, p)[0]
    && forall r :: s'.Q(RunQ(r)) == Rest(Line(s, s'.a, l, r), r == p) + (if t != 0 && r == s'.Prio(t) then [t] else [])
  }

  function Rest(l: seq<nat>, served: bool): seq<nat> {
    if served && l != [] then l[1..] else l
  }

  /** Thread `t` (nobody, when 0) has the processor while the threads `l` become ready, in this order. It keeps the
      processor unless somebody strictly more urgent is ready: then the first of the most urgent takes over. */
  ghost predicate Turn(s: State, l: seq<nat>, t: nat, s': State) {
    var q := if t == 0 then 32 else s'.Prio(t);
    && (NoneBefore(s, s'.a, l, q) ==> s'.d.cur == t && forall p :: s'.Q(RunQ(p)) == Line(s, s'.a, l, p))
    && (forall p :: p < q && Line(s, s'.a, l, p) != [] && NoneBefore(s, s'.a, l, p) ==> Hands(s, l, t, p, s'))
  }

  // ----- choosing who runs

  function Runner(s: State): nat {
    if s.d.cur != 0 && s.St(s.d.cur) == Running then s.d.cur else 0
  }

  /** The first priority with a ready thread. */
  lemma FirstReady(s: State, p: int)
    requires WF(s, {})
    ensures s.Q(RunQ(p)) != [] ==> 0 <= p < 32 && B.Cntlzw(s.d.bits) <= p
    ensures var q := B.Cntlzw(s.d.bits);
      (s.d.bits == {} <==> q == 32) && 0 <= q <= 32 && (q < 32 ==> s.Q(RunQ(q)) != [])
  {
    MostUrgent(s, {});
    if s.Q(RunQ(p)) != [] {
      var t := s.Q(RunQ(p))[0];
      assert t in s.Q(RunQ(p)) && Located(s, {}, RunQ(p), t) && ThreadOk(s, {}, t);
    }
  }

  /** Nobody is ready at a priority below `q`. */
  ghost predicate Empty(s: State, q: int) {
    forall r :: s.Q(RunQ(r)) != [] ==> q <= r
  }

  lemma FirstIsLeast(s: State)
    requires WF(s, {})
    ensures Empty(s, B.Cntlzw(s.d.bits))
  {
    forall r ensures s.Q(RunQ(r)) != [] ==> B.Cntlzw(s.d.bits) <= r { FirstReady(s, r); }
  }

  lemma LineIs(s: State, a: Attrs, p: int)
    ensures Line(s, a, [], p) == s.Q(RunQ(p))
  {
  }

  /** The lines of `x` are those of `s`, with thread `t`, if any, behind those of its priority. */
  ghost predicate Behind(s: State, t: nat, x: State) {
    forall r :: x.Q(RunQ(r)) == s.Q(RunQ(r)) + (if t != 0 && r == x.Prio(t) then [t] else [])
  }

  lemma TakeTurn(s: State, x: State, t: nat, p: int)
    requires Behind(s, t, x)
    requires s.Q(RunQ(p)) != []
    ensures Hands(s, [], t, p, C.Take(x, p))
  {
    var s' := C.Take(x, p);
    forall r ensures Line(s, s'.a, [], r) == s.Q(RunQ(r)) { LineIs(s, s'.a, r); }
    assert s'.a == x.a;
    forall r ensures s'.Q(RunQ(r)) == Rest(s.Q(RunQ(r)), r == p) + (if t != 0 && r == x.Prio(t) then [t] else []) {
      assert s'.Q(RunQ(r)) == if r == p then x.Q(RunQ(r))[1..] else x.Q(RunQ(r));
    }
  }

  /** Only the first priority with a ready thread can hand the processor over. */
  lemma OnlyFirst(s: State, t: nat, p: int, s': State)
    requires s.Q(RunQ(p)) != [] && Hands(s, [], t, p, s') && p < (if t == 0 then 32 else s'.Prio(t))
    requires Empty(s, p)
    ensures Turn(s, [], t, s')
  {
    forall r ensures Line(s, s'.a, [], r) == s.Q(RunQ(r)) { LineIs(s, s'.a, r); }
    hide Line, Hands;
    assert Line(s, s'.a, [], p) != [];
    forall r | Line(s, s'.a, [], r) != [] && NoneBefore(s, s'.a, [], r) ensures r == p {}
  }

  lemma StaysOn(s: State, t: nat, s': State)
    requires s'.d.cur == t && (forall r :: s'.Q(RunQ(r)) == s.Q(RunQ(r)))
    requires Empty(s, if t == 0 then 32 else s'.Prio(t))
    ensures Turn(s, [], t, s')
  {
    forall r ensures Line(s, s'.a, [], r) == s.Q(RunQ(r)) { LineIs(s, s'.a, r); }
    hide Line, Hands;
  }

  lemma IdleTurn(s: State)
    requires WF(s, {}) && Runner(s) == 0
    ensures Turn(s, [], 0, C.Dispatch(s.PutCur(0)))
  {
    var x := s.PutCur(0);
    IdleWF(s, {});
    var q := B.Cntlzw(x.d.bits);
    FirstIsLeast(s);
    FirstReady(s, q);
    assert forall r :: x.Q(RunQ(r)) == s.Q(RunQ(r)) + [];
    if q == 32 {
      StaysOn(s, 0, C.Dispatch(x));
    } else {
      TakeTurn(s, x, 0, q);
      OnlyFirst(s, 0, q, C.Dispatch(x));
    }
  }

  lemma OvertakenTurn(s: State)
    requires WF(s, {}) && Runner(s) != 0 && B.Cntlzw(s.d.bits) < s.Prio(s.d.cur)
    ensures Turn(s, [], s.d.cur, C.Dispatch(C.Preempt(s)))
  {
    var t, x, q := s.d.cur, C.Preempt(s), B.Cntlzw(s.d.bits);
    assert ThreadOk(s, {}, t);
    hide WF, C.Preempt;
    PreemptWF(s, {});
    PreemptBehind(s);
    FirstIsLeast(s);
    FirstIsLeast(x);
    FirstReady(s, q);
    FirstReady(x, B.Cntlzw(x.d.bits));
    assert x.Q(RunQ(q)) == s.Q(RunQ(q)) + [];
    assert B.Cntlzw(x.d.bits) == q;
    assert C.Dispatch(x) == C.Take(x, q);
    hide C.Dispatch, C.Take, Behind;
    TakeTurn(s, x, t, q);
    OnlyFirst(s, t, q, C.Dispatch(x));
  }

  lemma PreemptBehind(s: State)
    requires s.d.cur != 0
    ensures Behind(s, s.d.cur, C.Preempt(s)) && C.Preempt(s).Prio(s.d.cur) == s.Prio(s.d.cur)
  {
    var x := C.Preempt(s);
    forall r ensures x.Q(RunQ(r)) == s.Q(RunQ(r)) + (if r == s.Prio(s.d.cur) then [s.d.cur] else []) {}
  }

  lemma SelectTurn(s: State)
    requires WF(s, {}) && s.a.resched <= 0
    ensures Turn(s, [], Runner(s), C.Select(s, false))
  {
    if Runner(s) == 0 {
      assert C.Select(s, false) == C.Dispatch(s.PutCur(0));
      IdleTurn(s);
    } else if s.Prio(s.d.cur) <= B.Cntlzw(s.d.bits) {
      FirstIsLeast(s);
      StaysOn(s, s.d.cur, s);
    } else {
      assert C.Select(s, false) == C.Dispatch(C.Preempt(s));
      OvertakenTurn(s);
    }
  }

  /** Where the dispatching rule holds already, the running thread goes on. */
  lemma QuietTurn(s: State)
    requires WF(s, {}) && Dispatched(s)
    ensures Turn(s, [], s.d.cur, s)
  {
    forall r ensures s.Q(RunQ(r)) != [] ==> (if s.d.cur == 0 then 32 else s.Prio(s.d.cur)) <= r {
      if s.Q(RunQ(r)) != [] {
        var t := s.Q(RunQ(r))[0];
        assert t in s.Q(RunQ(r)) && Located(s, {}, RunQ(r), t) && ThreadOk(s, {}, t) && s.Runnable(t);
      }
    }
    StaysOn(s, s.d.cur, s);
  }

  lemma RescheduleTurn(s: State)
    requires WF(s, {}) && s.a.resched <= 0 && (s.d.hint || Dispatched(s))
    ensures Turn(s, [], Runner(s), C.Reschedule(s))
  {
    if s.d.hint { SelectTurn(s); } else { QuietTurn(s); }
  }

  // ----- threads becoming ready

  lemma WakeOneLine(s: State, k: Qid, p: int)
    requires !k.RunQ? && s.Q(k) != []
    ensures C.WakeOne(s, k).Q(RunQ(p)) == s.Q(RunQ(p)) + Fit(s.a, [s.Q(k)[0]], p)
    ensures C.WakeOne(s, k).Q(k) == s.Q(k)[1..]
  {
    assert [s.Q(k)[0]][1..] == [];
  }

  lemma FitFirst(a: Attrs, l: seq<nat>, p: int)
    requires l != []
    ensures Fit(a, l, p) == Fit(a, [l[0]], p) + Fit(a, l[1..], p)
  {
    assert [l[0]][1..] == [];
  }

  lemma WakeAllFirst(s: State, k: Qid)
    requires !k.RunQ? && s.Q(k) != []
    ensures C.WakeAll(s, k) == C.WakeAll(C.WakeOne(s, k), k)
  {
  }

  /** Waking a queue puts its threads behind those already ready, first come first. */
  lemma {:induction false} WakeAllLine(s: State, k: Qid, p: int)
    requires !k.RunQ?
    ensures C.WakeAll(s, k).Q(RunQ(p)) == Line(s, s.a, s.Q(k), p)
    decreases |s.Q(k)|
  {
    if s.Q(k) != [] {
      WakeOneLine(s, k, p);
      WakeAllFirst(s, k);
      FitFirst(s.a, s.Q(k), p);
      hide C.WakeOne, C.WakeAll, Fit;
      WakeAllLine(C.WakeOne(s, k), k, p);
    }
  }

  /** A turn taken from the lines as they are, seen from where they came from. */
  lemma TurnFrom(s: State, l: seq<nat>, x: State, t: nat, s': State)
    requires Turn(x, [], t, s') && forall p :: x.Q(RunQ(p)) == Line(s, s'.a, l, p)
    ensures Turn(s, l, t, s')
  {
    forall p ensures Line(x, s'.a, [], p) == Line(s, s'.a, l, p) { LineIs(x, s'.a, p); }
    hide Line;
    forall p | Hands(x, [], t, p, s') ensures Hands(s, l, t, p, s') {}
  }

  lemma SameLines(s: State, s1: State, l: seq<nat>, t: nat, s': State)
    requires Turn(s1, l, t, s') && forall p :: s1.Q(RunQ(p)) == s.Q(RunQ(p))
    ensures Turn(s, l, t, s')
  {
    forall p ensures Line(s, s'.a, l, p) == Line(s1, s'.a, l, p) {}
    hide Line;
    forall p | Hands(s1, l, t, p, s') ensures Hands(s, l, t, p, s') {}
  }

  lemma WakeupTurn(s: State, k: Qid)
    requires WF(s, {}) && !k.RunQ? && (k.MutexQ? ==> s.Owner(k.m) == 0) && CurOk(s) && s.a.resched <= 0
    requires HintOk(C.WakeAll(s, k))
    ensures Turn(s, s.Q(k), s.d.cur, C.Wakeup(s, k))
  {
    var x := C.WakeAll(s, k);
    WakeAllWF(s, k, {});
    forall p ensures x.Q(RunQ(p)) == Line(s, s.a, s.Q(k), p) { WakeAllLine(s, k, p); }
    hide WF, C.WakeAll, C.Reschedule, Line, Turn, Dispatched;
    assert Runner(x) == s.d.cur;
    RescheduleTurn(x);
    TurnFrom(s, s.Q(k), x, s.d.cur, C.Reschedule(x));
  }

  // ----- calls

  /** The running thread parks, or is suspended. */
  predicate Stops(s: State, c: Call) {
    match c
    case Sleep(_) => true
    case Suspend(t) => t == s.d.cur && s.Susp(t) == 0
    case Send(i, _, block, _) => block && s.Mq(i).used >= s.Mq(i).count
    case Receive(i, block) => block && s.Mq(i).used == 0
    case _ => false
  }

  /** The threads that a call makes ready, in the order in which they stood. */
  function Arrivals(s: State, c: Call): seq<nat> {
    match c
    case Wakeup(k) => s.Q(k)
    case Unlock(m) => if s.Owner(m) == s.d.cur && s.Count(m) == 1 then s.Q(MutexQ(m)) else []
    case Send(i, _, _, _) => if s.Mq(i).used < s.Mq(i).count then s.Q(RecvQ(i)) else []
    case Receive(i, _) => if s.Mq(i).used != 0 then s.Q(SendQ(i)) else []
    case Resume(t) => if s.Susp(t) == 1 && s.St(t) == Ready then [t] else []
    case _ => []
  }

  /** The calls that move nobody between run queues but by arrivals, by stopping the caller and by dispatching. */
  predicate Plain(s: State, c: Call) {
    match c
    case Yield => false
    case Exit(_) => false
    case Cancel(_) => false
    case Lock(m) => s.Owner(m) in {0, s.d.cur}
    case Retry => s.Owner(s.Mutex(s.d.cur)) in {0, s.d.cur}
    case Suspend(t) => s.Susp(t) != 0 || s.St(t) == Running || !s.Live(t)
    case Resume(t) => s.Susp(t) == 1 ==> s.St(t) != Waiting
    case _ => true
  }

  lemma QuietStep(s: State, c: Call)
    requires Good(s) && Dispatched(s) && Enabled(s, c) && s.a.resched <= 0
    requires Step(s, c).d.cur == s.d.cur && forall p :: Step(s, c).Q(RunQ(p)) == s.Q(RunQ(p))
    ensures Turn(s, [], s.d.cur, Step(s, c))
  {
    var s' := Step(s, c);
    StepGood(s, c);
    assert WF(s', {}) && Dispatched(s');
    hide Step, WF, Dispatched, Turn;
    QuietTurn(s');
    SameLines(s, s', [], s.d.cur, s');
  }

  lemma WakeupCall(s: State, k: Qid)
    requires Good(s) && Enabled(s, Wakeup(k)) && s.a.resched <= 0
    ensures Turn(s, s.Q(k), s.d.cur, C.Wakeup(s, k))
  {
    forall t ensures WaitOk(s, t, {k}) { assert WaitOk(s, t, {}); }
    WakeAllSane(s, k);
    hide Turn, C.Wakeup, C.WakeAll;
    WakeupTurn(s, k);
  }

  lemma UnlockCall(s: State, m: nat)
    requires Good(s) && s.d.cur != 0 && s.a.resched <= 0 && s.Owner(m) == s.d.cur && s.Count(m) == 1
    ensures Turn(s, s.Q(MutexQ(m)), s.d.cur, C.Unlock(s, m))
  {
    var s1 := C.Release(s, m);
    ReleaseSane(s, m);
    assert C.Unlock(s, m) == C.Wakeup(s1, MutexQ(m)) && s1.a.resched <= 0;
    UnlockHintOk(s, m);
    hide Turn, C.Wakeup, C.WakeAll, C.Release, C.Unlock, WF;
    WakeupTurn(s1, MutexQ(m));
    SameLines(s, s1, s.Q(MutexQ(m)), s.d.cur, C.Wakeup(s1, MutexQ(m)));
  }

  lemma UnlockHintOk(s: State, m: nat)
    requires Good(s) && s.d.cur != 0 && s.Owner(m) == s.d.cur
    ensures HintOk(C.WakeAll(C.Release(s, m), MutexQ(m)))
  {
    var s1 := C.Release(s, m);
    ReleaseSane(s, m);
    hide C.WakeAll, C.Release, WF, Inherits;
    WakeAllSane(s1, MutexQ(m));
    if !HintOk(s1) {
      var w :| w in s.Q(MutexQ(m)) && s.Susp(w) == 0;
      WakeAllHints(s1, MutexQ(m), w);
    }
  }

  lemma MessageTurn(s: State, i: nat, u: MsgQueue, k: Qid)
    requires Good(s) && s.a.resched <= 0 && MqOk(u) && k in {SendQ(i), RecvQ(i)}
    requires k == RecvQ(i) ==> s.Mq(i).used < s.Mq(i).count
    requires k == SendQ(i) ==> s.Mq(i).used > 0
    ensures Turn(s, s.Q(k), s.d.cur, C.Wakeup(C.PutMq(s, i, u), k))
  {
    var s1 := C.PutMq(s, i, u);
    MqSane(s, i, u, k);
    WakeAllSane(s1, k);
    hide Turn, C.Wakeup, C.WakeAll, WF;
    WakeupTurn(s1, k);
    SameLines(s, s1, s.Q(k), s.d.cur, C.Wakeup(s1, k));
  }

  lemma SleepTurn(s: State, k: Qid)
    requires WF(s, {}) && MaySleep(s, k)
    ensures Turn(s, [], 0, C.Sleep(s, k))
  {
    var t := s.d.cur;
    var x := Park(s.PutSt(t, Waiting).PutQueue(t, k), t).Hint();
    SleepWF(s, k);
    assert Runner(x) == 0 && forall p :: x.Q(RunQ(p)) == s.Q(RunQ(p));
    hide C.Reschedule, WF, Park, MaySleep, Turn;
    RescheduleTurn(x);
    SameLines(s, x, [], 0, C.Reschedule(x));
  }

  lemma SuspendTurn(s: State, t: nat)
    requires Good(s) && t != 0 && s.a.resched <= 0 && s.Susp(t) == 0 && (s.St(t) == Running || !s.Live(t))
    ensures Turn(s, [], if t == s.d.cur then 0 else s.d.cur, C.Suspend(s, t))
  {
    var x := C.Halt(s.PutSusp(t, 1), t);
    assert ThreadOk(s, {}, t);
    HaltMoves(s, t);
    assert C.Suspend(s, t) == C.Reschedule(x) && forall p :: x.Q(RunQ(p)) == s.Q(RunQ(p));
    assert Runner(x) == if t == s.d.cur then 0 else s.d.cur;
    if s.St(t) != Running { SuspendIdle(s, t, 1); }
    hide C.Reschedule, C.Halt, C.Suspend, WF, Turn, MayHalt, Inherits;
    RescheduleTurn(x);
    SameLines(s, x, [], Runner(x), C.Reschedule(x));
  }

  lemma SetRunLine(s: State, s1: State, t: nat, p: int)
    requires s1.d == s.d && s1.Susp(t) <= 0
    ensures SetRun(s1, t).Q(RunQ(p)) == Line(s, s1.a, [t], p) && SetRun(s1, t).a == s1.a
    ensures SetRun(s1, t).d.cur == s.d.cur
  {
    assert [t][1..] == [] && Fit(s1.a, [t], p) == if s1.Prio(t) == p then [t] else [];
    assert RunQ(p) == RunQ(s1.Prio(t)) <==> p == s1.Prio(t);
    assert s.Q(RunQ(p)) + [] == s.Q(RunQ(p));
  }

  lemma ResumeReady(s: State, t: nat)
    requires Good(s) && s.a.resched <= 0 && s.Susp(t) == 1 && s.St(t) == Ready
    ensures Turn(s, [t], s.d.cur, C.Resume(s, t))
  {
    var s0 := s.PutSusp(t, 0);
    var s1 := s0.PutPrio(t, Effective(s0, t));
    var x := C.Restart(s0, t);
    RestartReady(s, t);
    assert C.Resume(s, t) == C.Reschedule(x) && x == SetRun(s1, t) && s1.Susp(t) == 0;
    forall p ensures x.Q(RunQ(p)) == Line(s, x.a, [t], p) { SetRunLine(s, s1, t, p); }
    assert x.d.cur == s.d.cur by { SetRunLine(s, s1, t, 0); }
    hide C.Reschedule, C.Restart, C.Resume, Effective, WF, Turn, Line, Dispatched, Inherits;
    assert Runner(x) == s.d.cur;
    RescheduleTurn(x);
    TurnFrom(s, [t], x, s.d.cur, C.Reschedule(x));
  }

  lemma ResumeIdle(s: State, t: nat)
    requires Good(s) && t != 0 && s.a.resched <= 0 && s.Susp(t) == 1 && s.St(t) != Ready && s.St(t) != Waiting
    ensures Turn(s, [], s.d.cur, C.Resume(s, t))
  {
    var x := s.PutSusp(t, 0);
    assert ThreadOk(s, {}, t);
    SuspendIdle(s, t, 0);
    assert C.Resume(s, t) == C.Reschedule(x) && Runner(x) == s.d.cur && forall p :: x.Q(RunQ(p)) == s.Q(RunQ(p));
    hide C.Reschedule, C.Resume, WF, Turn, Dispatched, Inherits;
    RescheduleTurn(x);
    SameLines(s, x, [], s.d.cur, C.Reschedule(x));
  }

  lemma HaltsOrNot(s: State, c: Call)
    requires Good(s) && Dispatched(s) && Enabled(s, c) && s.a.resched <= 0 && Plain(s, c)
    requires c.Suspend? || c.Resume?
    ensures Turn(s, Arrivals(s, c), if Stops(s, c) then 0 else s.d.cur, Step(s, c))
  {
    assert ThreadOk(s, {}, c.t) && ThreadOk(s, {}, s.d.cur);
    match c
    case Suspend(t) => if s.Susp(t) == 0 { SuspendTurn(s, t); } else { QuietStep(s, c); }
    case Resume(t) =>
      if s.Susp(t) != 1 { QuietStep(s, c); } else if s.St(t) == Ready { ResumeReady(s, t); } else { ResumeIdle(s, t); }
  }

  lemma Asks(s: State, c: Call)
    requires Good(s) && Dispatched(s) && Enabled(s, c) && s.a.resched <= 0 && Plain(s, c)
    requires c.Lock? || c.TryLock? || c.Unlock? || c.Retry?
    ensures Turn(s, Arrivals(s, c), s.d.cur, Step(s, c))
  {
    hide Turn;
    match c
    case Unlock(m) => if s.Owner(m) == s.d.cur && s.Count(m) == 1 { UnlockCall(s, m); } else { QuietStep(s, c); }
    case _ => QuietStep(s, c);
  }

  lemma Messages(s: State, c: Call)
    requires Good(s) && Dispatched(s) && Enabled(s, c) && s.a.resched <= 0 && (c.Send? || c.Receive?)
    ensures Turn(s, Arrivals(s, c), if Stops(s, c) then 0 else s.d.cur, Step(s, c))
  {
    var u := s.Mq(c.i);
    assert MqOk(u);
    match c
    case Send(i, msg, block, front) =>
      hide Turn, C.Sleep, C.Wakeup, C.Append, C.Prepend;
      if u.used < u.count {
        AppendContents(u, msg);
        PrependContents(u, msg);
        MessageTurn(s, i, if front then C.Prepend(u, msg) else C.Append(u, msg), RecvQ(i));
      } else if block {
        SleepTurn(s, SendQ(i));
      } else {
        QuietStep(s, c);
      }
    case Receive(i, block) =>
      hide Turn, C.Sleep, C.Wakeup, C.Drop;
      if u.used != 0 {
        DropContents(u);
        MessageTurn(s, i, C.Drop(u), SendQ(i));
      } else if block {
        SleepTurn(s, RecvQ(i));
      } else {
        QuietStep(s, c);
      }
  }

  /** Who runs after a call, and how the ready threads stand. */
  lemma StepTurn(s: State, c: Call)
    requires Good(s) && Dispatched(s) && Enabled(s, c) && s.a.resched <= 0 && Plain(s, c)
    ensures Turn(s, Arrivals(s, c), if Stops(s, c) then 0 else s.d.cur, Step(s, c))
  {
    hide Good, Dispatched, Turn;
    match c
    case Suspend(_) => HaltsOrNot(s, c);
    case Resume(_) => HaltsOrNot(s, c);
    case Lock(_) => Asks(s, c);
    case TryLock(_) => Asks(s, c);
    case Unlock(_) => Asks(s, c);
    case Retry => Asks(s, c);
    case Send(_, _, _, _) => Messages(s, c);
    case Receive(_, _) => Messages(s, c);
    case Sleep(k) => SleepCall(s, k);
    case Wakeup(k) => WakeupCall(s, k);
    case _ => Quiet(s, c);
  }

  lemma Quiet(s: State, c: Call)
    requires Good(s) && Dispatched(s) && Enabled(s, c) && s.a.resched <= 0
    requires c.Create? || c.InitQueue? || c.DisableScheduler? || c.EnableScheduler?
    ensures Turn(s, [], s.d.cur, Step(s, c))
  {
    hide Turn, Good, Dispatched;
    QuietStep(s, c);
  }

  lemma SleepCall(s: State, k: Qid)
    requires Good(s) && Enabled(s, Sleep(k))
    ensures Turn(s, [], 0, C.Sleep(s, k))
  {
    hide Turn, C.Sleep;
    SleepTurn(s, k);
  }

  // ----- parking

  /** Thread `t` stands in queue `k` behind all that are as urgent as it is, and ahead of the less urgent only. */
  ghost predicate Place(s: State, k: Qid, t: nat, before: seq<nat>, behind: seq<nat>) {
    && s.Q(k) == before + [t] + behind
    && (forall u :: u in before ==> s.Prio(u) <= s.Prio(t))
    && (forall u :: u in behind ==> s.Prio(t) < s.Prio(u))
  }

  lemma InsertSplits(l: seq<nat>, t: nat, key: map<nat, int>) returns (a: seq<nat>, b: seq<nat>)
    requires Sorted(l, key)
    ensures a + b == l && Insert(l, t, key) == a + [t] + b
    ensures forall u :: u in a ==> At(key, u, 0) <= At(key, t, 0)
    ensures forall u :: u in b ==> At(key, t, 0) < At(key, u, 0)
  {
    var i := InsertPos(l, key, At(key, t, 0));
    InsertPosBetween(l, key, At(key, t, 0));
    a, b := l[..i], l[i..];
    forall u | u in b ensures At(key, t, 0) < At(key, u, 0) {
      var j :| i <= j < |l| && l[j] == u;
      assert At(key, l[i], 0) <= At(key, l[j], 0);
    }
  }

  lemma SleepPlace(s: State, k: Qid)
    requires WF(s, {}) && !k.RunQ?
    ensures exists a, b :: a + b == s.Q(k) && Place(C.Sleep(s, k), k, s.d.cur, a, b)
  {
    var t := s.d.cur;
    var x := Park(s.PutSt(t, Waiting).PutQueue(t, k), t).Hint();
    assert QueueOk(s, k) && C.Sleep(s, k) == C.Reschedule(x);
    var a, b := InsertSplits(s.Q(k), t, s.a.prio);
    assert Place(x, k, t, a, b);
    hide C.Reschedule, WF, C.Sleep, Park;
    RescheduleQueues(x, k);
    assert Place(C.Reschedule(x), k, t, a, b);
  }

  lemma SleepQueue(s: State, k: Qid)
    requires WF(s, {}) && MaySleep(s, k)
    ensures C.Sleep(s, k).Queue(s.d.cur) == k
  {
    hide C.Sleep, StandOf;
    SleepStands(s, k);
    assert StandOf(C.Sleep(s, k), s.d.cur) == Parked(k);
    ParkedQueue(C.Sleep(s, k), s.d.cur, k);
  }

  lemma ParkedQueue(s: State, t: nat, k: Qid)
    requires StandOf(s, t) == Parked(k)
    ensures s.Queue(t) == k
  {
  }

  lemma RescheduleQueues(s: State, k: Qid)
    requires !k.RunQ?
    ensures C.Reschedule(s).Q(k) == s.Q(k)
  {
  }

  /** The queue in which a call parks the running thread. */
  function ParkedIn(c: Call): Qid {
    match c
    case Sleep(k) => k
    case Send(i, _, _, _) => SendQ(i)
    case Receive(i, _) => RecvQ(i)
    case _ => NoQ
  }

  lemma StopIsSleep(s: State, c: Call)
    requires Good(s) && Enabled(s, c) && Stops(s, c) && !c.Suspend?
    ensures WF(s, {}) && MaySleep(s, ParkedIn(c)) && Step(s, c) == C.Sleep(s, ParkedIn(c))
  {
    hide C.Sleep;
    match c
    case Sleep(_) =>
    case Send(i, _, _, _) => assert MqOk(s.Mq(i));
    case Receive(i, _) => assert MqOk(s.Mq(i));
  }

  /** A thread that parks stands behind all that are at least as urgent as it is and ahead of all the others, whose
      order stays as it was. */
  lemma ParksBehind(s: State, c: Call)
    requires Good(s) && Enabled(s, c) && Stops(s, c) && !c.Suspend?
    ensures var t, k, s' := s.d.cur, ParkedIn(c), Step(s, c);
      s'.Queue(t) == k && exists a, b :: a + b == s.Q(k) && Place(s', k, t, a, b)
  {
    hide Good, Enabled, Stops, Step, WF, MaySleep, Place, C.Sleep;
    StopIsSleep(s, c);
    ParkIsWait(s, ParkedIn(c));
    SleepQueue(s, ParkedIn(c));
    SleepPlace(s, ParkedIn(c));
  }

  lemma ParkIsWait(s: State, k: Qid)
    requires MaySleep(s, k)
    ensures !k.RunQ?
  {
  }

  /** A contended lock parks its caller behind all waiters that are at least as urgent, ahead of all the others. */
  lemma LockBehind(s: State, m: nat)
    requires Good(s) && Enabled(s, Lock(m)) && s.Owner(m) !in {0, s.d.cur}
    ensures exists a, b :: Place(Step(s, Lock(m)), MutexQ(m), s.d.cur, a, b)
  {
    LockIsSleep(s, m);
    hide *;
    SleepPlace(Promote(s.PutMutex(s.d.cur, m), s.Owner(m), s.Prio(s.d.cur)), MutexQ(m));
  }

  lemma LockIsSleep(s: State, m: nat)
    requires Good(s) && Enabled(s, Lock(m)) && s.Owner(m) !in {0, s.d.cur}
    ensures s.Prio(s.d.cur) >= 0 && !MutexQ(m).RunQ?
    ensures var x := Promote(s.PutMutex(s.d.cur, m), s.Owner(m), s.Prio(s.d.cur));
      WF(x, {}) && x.d.cur == s.d.cur && Step(s, Lock(m)) == C.Sleep(x, MutexQ(m))
  {
    SuspSound(s, s.d.cur);
    LockRuns(s, m);
    hide Good, WF, Promote, MaySleep, C.Sleep;
    LockMoves(s, m);
  }

  lemma LockRuns(s: State, m: nat)
    requires Good(s) && Enabled(s, Lock(m))
    ensures s.d.cur != 0 && m != 0 && (s.Owner(m) in {0, s.d.cur} || s.a.resched <= 0)
  {
  }
}
