/** What is recorded of a thread besides its place: how often it is suspended, its base priority, whether it is
    detached, its exit value, and the mutex it is after. Exactly what each call changes of it, and the suspension count
    over whole runs. */
module SchedRecords {
  import opened Lists
  import opened Sched
  import opened SchedInv
  import opened SchedChain
  import C = SchedCalls
  import opened SchedGood
  import opened SchedMutex
  import opened SchedHoldings
  import opened SchedRetry
  import opened SchedRuns

  ghost predicate Kept(s: State, s': State) {
    && s'.a.susp == s.a.susp && s'.a.base == s.a.base && s'.a.detached == s.a.detached && s'.a.val == s.a.val
    && s'.a.mutex == s.a.mutex && s'.a.resched == s.a.resched
  }

  // ----- what each call leaves alone

  lemma ResumeKept(s: State, t: nat)
    ensures Kept(s.PutSusp(t, if s.Susp(t) > 1 then s.Susp(t) - 1 else 0), C.Resume(s, t))
  {
    var c := s.Susp(t) - 1;
    if c == 0 {
      var s0 := s.PutSusp(t, c);
      match s0.St(t)
      case Waiting =>
        var s1 := Unpark(s0, t);
        NotifyHoldings(Park(s1.PutPrio(t, Effective(s1, t)), t), t, {});
      case Ready =>
      case _ =>
    }
  }

  lemma SuspendKept(s: State, t: nat)
    ensures Kept(s.PutSusp(t, s.Susp(t) + 1), C.Suspend(s, t))
  {
    var s0 := s.PutSusp(t, s.Susp(t) + 1);
    if s.Susp(t) == 0 {
      match s0.St(t)
      case Waiting =>
        var k := s0.Queue(t);
        var s1 := Unpark(s0, t).PutPrio(t, 32);
        NotifyHoldings(s1.PutQ(k, s1.Q(k) + [t]), t, {});
      case Ready =>
      case _ =>
    }
  }

  lemma EvictKept(s: State, t: nat)
    ensures Kept(s, C.Evict(s, t))
  {
    match s.St(t)
    case Ready =>
    case Running =>
    case _ =>
      var s1 := Unpark(s, t).PutQueue(t, NoQ);
      if !(0 < s.Susp(t)) { NotifyHoldings(s1, t, {t}); }
  }

  lemma {:induction false} UnlockAllKept(s: State, d: nat)
    ensures Kept(s, C.UnlockAll(s, d))
    decreases |s.Own(d)|
  {
    if s.Own(d) != [] {
      var s2 := C.Wakeup(C.Disown(s, d), MutexQ(s.Own(d)[0]));
      assert Kept(s, s2) && C.UnlockAll(s, d) == C.UnlockAll(s2, d) && |s2.Own(d)| < |s.Own(d)|;
      UnlockAllKept(s2, d);
    }
  }

  lemma RetireKept(s: State, d: nat)
    ensures Kept(s, C.Retire(s, d))
  {
  }

  lemma ExitKept(s: State, v: int)
    ensures Kept(if At(s.a.detached, s.d.cur, false) then s else s.(a := s.a.(val := s.a.val[s.d.cur := v])),
                 C.Exit(s, v))
  {
    var t := s.d.cur;
    var s1 := if At(s.a.detached, t, false) then s else s.(a := s.a.(val := s.a.val[t := v]));
    RetireKept(s1, t);
    UnlockAllKept(C.Retire(s1, t), t);
    assert C.Exit(s, v).a == C.UnlockAll(C.Retire(s1, t), t).a;
    hide C.Exit, C.UnlockAll, C.Retire;
  }

  lemma CancelKept(s: State, t: nat)
    ensures Kept(s, C.Cancel(s, t))
  {
    if s.Live(t) {
      CancelAttrs(s, t);
      hide C.Cancel, C.UnlockAll, C.Retire, C.Evict;
      EvictKept(s, t);
      RetireKept(C.Evict(s, t), t);
      UnlockAllKept(C.Retire(C.Evict(s, t), t), t);
    }
  }

  lemma LockKept(s: State, m: nat)
    ensures Kept(if s.Owner(m) in {0, s.d.cur} || s.Prio(s.d.cur) < 0 then s else s.PutMutex(s.d.cur, m), C.Lock(s, m))
  {
    var t := s.d.cur;
    if !(s.Owner(m) in {0, t} || s.Prio(t) < 0) {
      var s1 := Promote(s.PutMutex(t, m), s.Owner(m), s.Prio(t));
      PromoteHoldings(s.PutMutex(t, m), s.Owner(m), s.Prio(t));
      assert C.Lock(s, m) == C.Sleep(s1, MutexQ(m));
      hide C.Lock, Promote;
    }
  }

  lemma UnlockKept(s: State, m: nat)
    ensures Kept(s, C.Unlock(s, m))
  {
    hide C.Release, C.Wakeup;
    ReleaseKept(s, m);
    QuietAttrs(C.Release(s, m), MutexQ(m));
  }

  lemma ReleaseKept(s: State, m: nat)
    ensures Kept(s, C.Release(s, m))
  {
    hide Effective;
  }

  lemma QuietAttrs(s: State, k: Qid)
    ensures C.Sleep(s, k).a == s.a && (!k.RunQ? ==> C.Wakeup(s, k).a == s.a) && C.Yield(s).a == s.a
  {
  }

  /** What a retry leaves in the records of the thread that retries. */
  lemma RetryKept(s: State)
    requires Good(s) && Pends(s) && s.a.resched <= 0
    ensures var t, m := s.d.cur, s.Mutex(s.d.cur);
      var got := s.Owner(m) == 0 || (s.Owner(m) == t && s.Count(m) == 0);
      var v := if At(s.a.val, t, 0) > 0 && got then s.a.val[t := C.VAL_UNSET] else s.a.val;
      Kept(s.(a := s.a.(val := v, mutex := s.a.mutex[t := if s.Owner(m) in {0, t} then 0 else m])), C.PendingLock(s))
  {
    var t, m := s.d.cur, s.Mutex(s.d.cur);
    var s0 := s.PutMutex(t, 0);
    hide Good, C.Lock, C.Retry, C.PendingLock;
    RunnerFacts(s, m);
    PendingCases(s);
    RetryIsLock(s);
    LockKept(s0, m);
    assert s.a.mutex[t := 0][t := m] == s.a.mutex[t := m];
  }

  lemma RetryIsLock(s: State)
    ensures C.Retry(s) == C.Lock(s.PutMutex(s.d.cur, 0), s.Mutex(s.d.cur))
  {
  }

  lemma SendKept(s: State, k: nat, msg: int, block: bool, front: bool)
    ensures Kept(s, C.Send(s, k, msg, block, front).0)
  {
    hide C.Append, C.Prepend;
  }

  lemma ReceiveKept(s: State, k: nat, block: bool)
    ensures Kept(s, C.Receive(s, k, block).0)
  {
    hide C.Drop;
  }

  // ----- the records after a call

  /** The thread that an accepted creation makes. */
  predicate Makes(c: Call, t: nat) {
    c.Create? && c.t == t && 0 <= c.p <= 31
  }

  /** One suspension more, one less but never below none, and one for a new thread. */
  function SuspAfter(n: int, c: Call, t: nat): int {
    if Makes(c, t) then 1
    else if c == Suspend(t) then n + 1
    else if c == Resume(t) && n > 0 then n - 1
    else n
  }

  function BaseAfter(s: State, c: Call, t: nat): int {
    if Makes(c, t) then c.p else s.Base(t)
  }

  function DetachedAfter(s: State, c: Call, t: nat): bool {
    if Makes(c, t) then c.detach else At(s.a.detached, t, false)
  }

  /** The exit value is what a thread that is not detached exits with. */
  function ValAfter(s: State, c: Call, t: nat): int {
    if Makes(c, t) then C.VAL_UNSET
    else if c.Exit? && t == s.d.cur && !At(s.a.detached, t, false) then c.v
    else if c.Retry? && t == s.d.cur && At(s.a.val, t, 0) > 0
      && (s.Owner(s.Mutex(t)) == 0 || (s.Owner(s.Mutex(t)) == t && s.Count(s.Mutex(t)) == 0)) then C.VAL_UNSET
    else At(s.a.val, t, 0)
  }

  /** The mutex a thread is after: the one it finds held, until a retry takes it. */
  function MutexAfter(s: State, c: Call, t: nat): nat {
    if Makes(c, t) then 0
    else if c.Lock? && t == s.d.cur && s.Owner(c.m) !in {0, t} then c.m
    else if c.Retry? && t == s.d.cur && s.Owner(s.Mutex(t)) in {0, t} then 0
    else s.Mutex(t)
  }

  function ReschedAfter(n: int, c: Call): int {
    if c.DisableScheduler? then n + 1 else if c.EnableScheduler? then n - 1 else n
  }

  ghost predicate Recorded(s: State, c: Call, s': State, t: nat) {
    && s'.Susp(t) == SuspAfter(s.Susp(t), c, t) && s'.Base(t) == BaseAfter(s, c, t)
    && At(s'.a.detached, t, false) == DetachedAfter(s, c, t) && At(s'.a.val, t, 0) == ValAfter(s, c, t)
    && s'.Mutex(t) == MutexAfter(s, c, t) && s'.a.resched == ReschedAfter(s.a.resched, c)
  }

  lemma SuspSound(s: State, t: nat)
    requires Good(s)
    ensures s.Susp(t) >= 0 && (s.Live(t) ==> s.Prio(t) >= 0)
  {
    assert ThreadOk(s, {}, t);
  }

  // ----- each call in turn

  /** The calls that leave all records alone. */
  predicate Plain(c: Call) {
    !(c.Create? || c.Resume? || c.Suspend? || c.Exit? || c.Lock? || c.Retry? || c.DisableScheduler?
      || c.EnableScheduler?)
  }

  lemma InitKept(s: State, k: nat, n: int)
    ensures Kept(s, C.InitQueue(s, k, n))
  {
  }

  lemma TryLockKept(s: State, m: nat)
    ensures Kept(s, C.TryLock(s, m).0)
  {
  }

  lemma PlainKept(s: State, c: Call)
    requires Plain(c)
    ensures Kept(s, Step(s, c))
  {
    hide C.Sleep, C.Wakeup, C.Yield, C.InitQueue, C.Send, C.Receive, C.Unlock, C.TryLock, C.Cancel;
    match c
    case Sleep(k) => QuietAttrs(s, k);
    case Wakeup(k) => QuietAttrs(s, k);
    case Yield => QuietAttrs(s, NoQ);
    case Cancel(u) => CancelKept(s, u);
    case TryLock(m) => TryLockKept(s, m);
    case Unlock(m) => UnlockKept(s, m);
    case InitQueue(i, n) => InitKept(s, i, n);
    case Send(i, msg, block, front) => SendKept(s, i, msg, block, front);
    case Receive(i, block) => ReceiveKept(s, i, block);
  }

  lemma PlainRecords(s: State, c: Call, s': State, t: nat)
    requires Plain(c) && Kept(s, s')
    ensures Recorded(s, c, s', t)
  {
  }

  lemma CreateRecords(s: State, u: nat, p: int, detach: bool, t: nat)
    ensures Recorded(s, Create(u, p, detach), C.Create(s, u, p, detach), t)
  {
  }

  lemma ResumeRecords(s: State, u: nat, t: nat)
    requires s.Susp(t) >= 0
    ensures Recorded(s, Resume(u), C.Resume(s, u), t)
  {
    hide C.Resume;
    ResumeKept(s, u);
  }

  lemma SuspendRecords(s: State, u: nat, t: nat)
    ensures Recorded(s, Suspend(u), C.Suspend(s, u), t)
  {
    hide C.Suspend;
    SuspendKept(s, u);
  }

  lemma ExitRecords(s: State, v: int, t: nat)
    ensures Recorded(s, Exit(v), C.Exit(s, v), t)
  {
    hide C.Exit;
    ExitKept(s, v);
  }

  lemma LockRecords(s: State, m: nat, t: nat)
    requires s.Prio(s.d.cur) >= 0
    ensures Recorded(s, Lock(m), C.Lock(s, m), t)
  {
    hide C.Lock;
    LockKept(s, m);
  }

  lemma RetryRecords(s: State, t: nat)
    requires Good(s) && Pends(s) && s.a.resched <= 0
    ensures Recorded(s, Retry, C.PendingLock(s), t)
  {
    hide C.PendingLock, Good;
    RetryKept(s);
  }

  lemma CountRecords(s: State, t: nat)
    ensures Recorded(s, DisableScheduler, s.(a := s.a.(resched := s.a.resched + 1)), t)
    ensures Recorded(s, EnableScheduler, s.(a := s.a.(resched := s.a.resched - 1)), t)
  {
  }

  lemma RunnerAsks(s: State, c: Call)
    requires Good(s) && Enabled(s, c)
    ensures c.Lock? ==> s.Prio(s.d.cur) >= 0
    ensures c.Retry? ==> Pends(s) && s.a.resched <= 0
  {
    SuspSound(s, s.d.cur);
  }

  /** Exactly what each call changes in the record of each thread. */
  lemma StepRecords(s: State, c: Call, t: nat)
    requires Good(s) && Enabled(s, c)
    ensures Recorded(s, c, Step(s, c), t)
  {
    hide Good, Enabled, Recorded, Kept, C.Create, C.Resume, C.Suspend, C.Exit, C.Lock, C.PendingLock, C.Sleep, C.Wakeup,
      C.Yield, C.InitQueue, C.Send, C.Receive, C.Unlock, C.TryLock, C.Cancel;
    SuspSound(s, t);
    RunnerAsks(s, c);
    match c
    case Create(u, p, detach) => CreateRecords(s, u, p, detach, t);
    case Resume(u) => ResumeRecords(s, u, t);
    case Suspend(u) => SuspendRecords(s, u, t);
    case Exit(v) => ExitRecords(s, v, t);
    case Lock(m) => LockRecords(s, m, t);
    case Retry => RetryRecords(s, t);
    case DisableScheduler => CountRecords(s, t);
    case EnableScheduler => CountRecords(s, t);
    case _ => PlainKept(s, c); PlainRecords(s, c, Step(s, c), t);
  }

  // ----- the suspension count over runs

  /** What a run makes of the suspension count of thread `t`. */
  function Tally(n: int, calls: seq<Call>, t: nat): int
    decreases |calls|
  {
    if calls == [] then n else Tally(SuspAfter(n, calls[0], t), calls[1..], t)
  }

  /** Over a whole run a thread's count is one when it is made, one more for each suspension, and one less, but never
      below none, for each resumption. */
  lemma {:induction false} RunTally(s: State, calls: seq<Call>, t: nat)
    requires Good(s) && Allowed(s, calls)
    ensures Run(s, calls).Susp(t) == Tally(s.Susp(t), calls, t)
    decreases |calls|
  {
    if calls != [] {
      StepRecords(s, calls[0], t);
      StepGood(s, calls[0]);
      hide Good, Step, Enabled, Recorded;
      RunTally(Step(s, calls[0]), calls[1..], t);
      Unrecorded(s, calls[0], t);
    }
  }

  lemma Unrecorded(s: State, c: Call, t: nat)
    requires Recorded(s, c, Step(s, c), t)
    ensures Step(s, c).Susp(t) == SuspAfter(s.Susp(t), c, t)
  {
    hide Step;
  }

  function Suspends(calls: seq<Call>, t: nat): nat {
    if calls == [] then 0 else (if calls[0] == Suspend(t) then 1 else 0) + Suspends(calls[1..], t)
  }

  function Resumes(calls: seq<Call>, t: nat): nat {
    if calls == [] then 0 else (if calls[0] == Resume(t) then 1 else 0) + Resumes(calls[1..], t)
  }

  predicate NotMade(calls: seq<Call>, t: nat) {
    forall i :: 0 <= i < |calls| ==> !Makes(calls[i], t)
  }

  /** Each resumption takes off one suspension at most; while resumptions are fewer than the suspensions there were to
      take off, exactly one. */
  lemma {:induction false} TallyBounds(n: int, calls: seq<Call>, t: nat)
    requires n >= 0 && NotMade(calls, t)
    ensures Tally(n, calls, t) >= 0 && Tally(n, calls, t) >= n + Suspends(calls, t) - Resumes(calls, t)
    ensures Resumes(calls, t) <= n ==> Tally(n, calls, t) == n + Suspends(calls, t) - Resumes(calls, t)
    ensures Suspends(calls, t) == 0 && Resumes(calls, t) >= n ==> Tally(n, calls, t) == 0
    decreases |calls|
  {
    if calls != [] {
      assert !Makes(calls[0], t);
      TallyBounds(SuspAfter(n, calls[0], t), calls[1..], t);
    }
  }

  /** A thread competes for the processor: it runs, or stands in a run queue. */
  ghost predicate Competes(s: State, t: nat) {
    (t == s.d.cur && s.St(t) == Running) || exists p :: t in s.Q(RunQ(p))
  }

  lemma CompetesIff(s: State, t: nat)
    requires Good(s)
    ensures Competes(s, t) <==> (s.St(t) == Ready || s.St(t) == Running) && s.Susp(t) == 0
  {
    assert ThreadOk(s, {}, t);
    forall p ensures t in s.Q(RunQ(p)) <==> s.Runnable(t) && s.Queue(t) == RunQ(p) {
      assert Located(s, {}, RunQ(p), t);
    }
    if s.Runnable(t) { assert t in s.Q(RunQ(s.Prio(t))); }
  }

  /** A thread suspended `n` times, whatever else is called in between, is out of the competition until it has been
      resumed `n` times. */
  lemma SuspendedOut(s: State, calls: seq<Call>, t: nat)
    requires Good(s) && Allowed(s, calls) && NotMade(calls, t)
    requires Resumes(calls, t) < s.Susp(t) + Suspends(calls, t)
    ensures !Competes(Run(s, calls), t)
  {
    SuspSound(s, t);
    RunTally(s, calls, t);
    TallyBounds(s.Susp(t), calls, t);
    RunGood(s, calls);
    hide Good, Run, Tally, Suspends, Resumes, Competes;
    CompetesIff(Run(s, calls), t);
  }

  /** And after the last of them it competes again, unless it waits or has ended. */
  lemma ResumedIn(s: State, calls: seq<Call>, t: nat)
    requires Good(s) && Allowed(s, calls) && NotMade(calls, t)
    requires Suspends(calls, t) == 0 && s.Susp(t) <= Resumes(calls, t)
    ensures var s' := Run(s, calls); Competes(s', t) <==> s'.St(t) == Ready || s'.St(t) == Running
  {
    SuspSound(s, t);
    RunTally(s, calls, t);
    TallyBounds(s.Susp(t), calls, t);
    RunGood(s, calls);
    hide Good, Run, Tally, Suspends, Resumes, Competes;
    CompetesIff(Run(s, calls), t);
  }
}
