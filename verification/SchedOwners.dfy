/** Who holds which mutex, how often, and what the message queues carry: exactly what each call changes of it, and what
    follows for whole runs. */
module SchedOwners {
  import opened Lists
  import opened Sched
  import opened SchedInv
  import opened SchedChain
  import C = SchedCalls
  import B = ReadyBits
  import opened SchedKeep
  import opened SchedGood
  import opened SchedMutex
  import opened SchedMessage
  import opened SchedHoldings
  import opened SchedRetry
  import opened SchedRuns

  // ----- mutual exclusion

  /** The running thread asks for mutex `m`. */
  predicate Asks(s: State, c: Call, m: nat) {
    match c
    case Lock(n) => n == m
    case TryLock(n) => n == m
    case Retry => s.Mutex(s.d.cur) == m
    case _ => false
  }

  /** The thread that holds `m` goes away. */
  predicate Departs(s: State, c: Call, m: nat) {
    match c
    case Exit(_) => s.Owner(m) == s.d.cur
    case Cancel(t) => s.Owner(m) == t
    case _ => false
  }

  /** Who holds `m` after a call: a free mutex goes to the running thread that asks for it; a held one changes hands
      only through its holder, by its last unlock or its end. */
  function OwnerAfter(s: State, c: Call, m: nat): nat {
    if s.Owner(m) == 0 then (if Asks(s, c, m) then s.d.cur else 0)
    else if Departs(s, c, m) || (c == Unlock(m) && s.Owner(m) == s.d.cur && s.Count(m) == 1) then 0
    else s.Owner(m)
  }

  /** The count of a mutex that the running thread gets: one more, unless a retry that gets it for the first time finds
      a saved count. */
  function CountGot(s: State, c: Call, m: nat): int {
    var n := if s.Owner(m) == 0 then 1 else s.Count(m) + 1;
    var saved := At(s.a.val, s.d.cur, 0);
    if c.Retry? && n == 1 && saved > 0 then C.ToInt32(saved) else n
  }

  /** How often it is held: locks by the holder less unlocks by the holder, but for what a retry restores. */
  function CountAfter(s: State, c: Call, m: nat): int {
    if s.Owner(m) == 0 then (if Asks(s, c, m) then CountGot(s, c, m) else 0)
    else if Departs(s, c, m) then 0
    else if Asks(s, c, m) && s.Owner(m) == s.d.cur then CountGot(s, c, m)
    else if c == Unlock(m) && s.Owner(m) == s.d.cur then s.Count(m) - 1
    else s.Count(m)
  }

  ghost predicate Holds(s: State, s': State, c: Call, m: nat) {
    s'.Owner(m) == OwnerAfter(s, c, m) && s'.Count(m) == CountAfter(s, c, m)
  }

  lemma LockHoldings(s: State, m: nat, c: Call, n: nat)
    requires WF(s, {}) && s.d.cur != 0 && m != 0 && c == Lock(m)
    ensures Holds(s, C.Lock(s, m), c, n) && C.Lock(s, m).a.mq == s.a.mq
  {
    assert MutexOk(s, {}, n) && MutexOk(s, {}, m);
    var t := s.d.cur;
    if s.Owner(m) == 0 {
    } else if s.Owner(m) == t {
    } else if s.Prio(t) >= 0 {
      var s0 := s.PutMutex(t, m);
      PromoteHoldings(s0, s.Owner(m), s.Prio(t));
      assert C.Lock(s, m) == C.Sleep(Promote(s0, s.Owner(m), s.Prio(t)), MutexQ(m));
    }
  }

  lemma ReleaseHoldings(s: State, m: nat)
    ensures var s' := C.Release(s, m);
      s'.a.owner == s.a.owner[m := 0] && s'.a.count == s.a.count[m := 0] && s'.a.mq == s.a.mq
  {
  }

  lemma UnlockCases(s: State, m: nat)
    ensures var s' := C.Unlock(s, m);
      && (s.Owner(m) != s.d.cur ==> s' == s)
      && (s.Owner(m) == s.d.cur && s.Count(m) != 1 ==> s' == s.PutCount(m, s.Count(m) - 1))
      && (s.Owner(m) == s.d.cur && s.Count(m) == 1 ==> s'.a == C.Release(s, m).a)
  {
    hide C.Release;
  }

  lemma UnlockHoldings(s: State, m: nat, n: nat)
    requires WF(s, {}) && s.d.cur != 0
    ensures Holds(s, C.Unlock(s, m), Unlock(m), n) && C.Unlock(s, m).a.mq == s.a.mq
  {
    assert MutexOk(s, {}, n) && MutexOk(s, {}, m);
    hide C.Unlock, C.Release, WF, MutexOk;
    UnlockCases(s, m);
    ReleaseHoldings(s, m);
  }

  predicate Quiet(c: Call) {
    !(c.Exit? || c.Cancel? || c.Lock? || c.TryLock? || c.Unlock? || c.Retry?)
  }

  lemma SleepAttrs(s: State, k: Qid)
    ensures C.Sleep(s, k).a == s.a
  {
  }

  /** Sending touches the one queue, and holdings not at all. */
  lemma SendAttrs(s: State, k: nat, msg: int, block: bool, front: bool)
    ensures var s' := C.Send(s, k, msg, block, front).0;
      s'.a.owner == s.a.owner && s'.a.count == s.a.count && forall j :: j != k ==> s'.Mq(j) == s.Mq(j)
  {
    var u, s' := s.Mq(k), C.Send(s, k, msg, block, front).0;
    SleepAttrs(s, SendQ(k));
    hide C.Sleep, C.Append, C.Prepend;
    if u.count <= u.used {
      assert s'.a == s.a;
    } else if u.count != 0 {
      assert s'.a == C.PutMq(s, k, if front then C.Prepend(u, msg) else C.Append(u, msg)).a;
    }
  }

  lemma ReceiveAttrs(s: State, k: nat, block: bool)
    ensures var s' := C.Receive(s, k, block).0;
      s'.a.owner == s.a.owner && s'.a.count == s.a.count && forall j :: j != k ==> s'.Mq(j) == s.Mq(j)
  {
    var u, s' := s.Mq(k), C.Receive(s, k, block).0;
    SleepAttrs(s, RecvQ(k));
    hide C.Sleep, C.Drop;
    if u.used == 0 {
      assert s'.a == s.a;
    } else if u.count != 0 {
      assert s'.a == C.PutMq(s, k, C.Drop(u)).a;
    }
  }

  lemma QuietHoldings(s: State, c: Call)
    requires Quiet(c)
    ensures Step(s, c).a.owner == s.a.owner && Step(s, c).a.count == s.a.count
  {
    match c
    case Resume(t) => ResumeHoldings(s, t);
    case Suspend(t) => SuspendHoldings(s, t);
    case Send(i, msg, block, front) => SendAttrs(s, i, msg, block, front);
    case Receive(i, block) => ReceiveAttrs(s, i, block);
    case Create(t, p, detach) =>
    case Sleep(k) =>
    case Wakeup(k) =>
    case Yield =>
    case InitQueue(i, n) =>
    case DisableScheduler =>
    case EnableScheduler =>
  }

  lemma DepartHolds(s: State, c: Call, m: nat)
    requires Good(s) && Enabled(s, c) && (c.Exit? || c.Cancel?)
    ensures Holds(s, Step(s, c), c, m)
  {
    assert MutexOk(s, {}, m);
    if c.Exit? {
      ExitHoldings(s, c.v);
      assert LetGo(s, C.Exit(s, c.v), s.d.cur, m) && Step(s, c) == C.Exit(s, c.v);
    } else if s.Live(c.t) {
      CancelHoldings(s, c.t);
      assert LetGo(s, C.Cancel(s, c.t), c.t, m) && Step(s, c) == C.Cancel(s, c.t);
    } else {
      assert Step(s, c) == s;
    }
  }

  lemma AskHolds(s: State, c: Call, m: nat)
    requires Good(s) && Enabled(s, c) && (c.Lock? || c.TryLock? || c.Retry?)
    ensures Holds(s, Step(s, c), c, m)
  {
    assert MutexOk(s, {}, m);
    match c
    case Lock(n) => LockHoldings(s, n, c, m);
    case TryLock(n) => assert MutexOk(s, {}, n);
    case Retry => RetryHolds(s, m);
  }

  lemma RestoreHolds(s: State, t: nat, n: nat)
    ensures var s' := C.Restore(s, t, n);
      s'.a.owner == s.a.owner && s'.a.count == s.a.count[n := C.ToInt32(At(s.a.val, t, 0))] && s'.a.mq == s.a.mq
  {
  }

  lemma LockHere(s: State, s0: State, s1: State, n: nat)
    requires n == s.Mutex(s.d.cur) && s0.Owner(n) == s.Owner(n) && s0.Count(n) == s.Count(n) && s0.d.cur == s.d.cur
    requires Holds(s0, s1, Lock(n), n)
    ensures s1.Owner(n) == OwnerAfter(s, Retry, n)
    ensures s1.Count(n) == if s.Owner(n) == 0 then 1 else if s.Owner(n) == s.d.cur then s.Count(n) + 1 else s.Count(n)
  {
  }

  lemma CountHere(s: State, n: nat)
    requires n == s.Mutex(s.d.cur)
    ensures var saved := At(s.a.val, s.d.cur, 0);
      CountAfter(s, Retry, n) ==
        if saved > 0 && (s.Owner(n) == 0 || (s.Owner(n) == s.d.cur && s.Count(n) == 0)) then C.ToInt32(saved)
        else if s.Owner(n) == 0 then 1 else if s.Owner(n) == s.d.cur then s.Count(n) + 1 else s.Count(n)
  {
    hide C.ToInt32;
  }

  /** A retry is a lock by a thread that forgot what it waited for, and perhaps a restored count. */
  lemma RetryMoves(s: State, s1: State, s': State, t: nat, n: nat, m: nat)
    requires t == s.d.cur && n == s.Mutex(t) && s1.a.val == s.a.val
    requires Holds(s.PutMutex(t, 0), s1, Lock(n), m) && Holds(s.PutMutex(t, 0), s1, Lock(n), n)
    requires s' == if At(s.a.val, t, 0) > 0 && (s.Owner(n) == 0 || (s.Owner(n) == t && s.Count(n) == 0))
                   then C.Restore(s1, t, n) else s1
    ensures Holds(s, s', Retry, m)
  {
    var s0 := s.PutMutex(t, 0);
    assert s0.a.owner == s.a.owner && s0.a.count == s.a.count && s0.d.cur == t;
    hide C.Restore, C.ToInt32, Holds;
    RestoreHolds(s1, t, n);
    if m != n {
      LockElsewhere(s0, s, s1, n, m);
      HoldsAs(s, s1, s', m);
    } else {
      hide OwnerAfter, CountAfter;
      LockHere(s, s0, s1, n);
      CountHere(s, n);
      HoldsBy(s, s', m);
    }
  }

  lemma HoldsBy(s: State, s': State, m: nat)
    requires s'.Owner(m) == OwnerAfter(s, Retry, m) && s'.Count(m) == CountAfter(s, Retry, m)
    ensures Holds(s, s', Retry, m)
  {
  }

  lemma HoldsAs(s: State, s1: State, s': State, m: nat)
    requires Holds(s, s1, Retry, m) && s'.Owner(m) == s1.Owner(m) && s'.Count(m) == s1.Count(m)
    ensures Holds(s, s', Retry, m)
  {
  }

  lemma LockElsewhere(s0: State, s: State, s1: State, n: nat, m: nat)
    requires m != n && n == s.Mutex(s.d.cur) && s0.Owner(m) == s.Owner(m) && s0.Count(m) == s.Count(m)
    requires Holds(s0, s1, Lock(n), m)
    ensures Holds(s, s1, Retry, m)
  {
  }

  lemma RetryHolds(s: State, m: nat)
    requires Good(s) && s.d.cur != 0 && s.Mutex(s.d.cur) != 0 && s.a.resched <= 0
    ensures Holds(s, C.PendingLock(s), Retry, m) && C.PendingLock(s).a.mq == s.a.mq
  {
    var t, n := s.d.cur, s.Mutex(s.d.cur);
    var s0 := s.PutMutex(t, 0);
    assert Pends(s) && C.Retry(s) == C.Lock(s0, n);
    ForgetMutex(s);
    assert WF(s0, {});
    RestoreHolds(C.Retry(s), t, n);
    hide *;
    LockHoldings(s0, n, Lock(n), m);
    LockHoldings(s0, n, Lock(n), n);
    LockVal(s0, n);
    PendingCases(s);
    RetryMoves(s, C.Retry(s), C.PendingLock(s), t, n, m);
  }

  /** Mutual exclusion, and exactly how a call moves mutex `m`. */
  lemma StepHolds(s: State, c: Call, m: nat)
    requires Good(s) && Enabled(s, c)
    ensures Holds(s, Step(s, c), c, m)
  {
    assert MutexOk(s, {}, m);
    if Quiet(c) {
      QuietHoldings(s, c);
    } else if c.Exit? || c.Cancel? {
      DepartHolds(s, c, m);
    } else if c.Unlock? {
      UnlockHoldings(s, c.m, m);
    } else {
      AskHolds(s, c, m);
    }
  }

  /** In this run thread `t` never unlocks `m`, never exits, and is never cancelled. */
  ghost predicate HoldsOn(s: State, calls: seq<Call>, t: nat, m: nat)
    decreases |calls|
  {
    calls != [] ==>
      && !(calls[0] == Unlock(m) && s.d.cur == t) && !(calls[0].Exit? && s.d.cur == t) && calls[0] != Cancel(t)
      && HoldsOn(Step(s, calls[0]), calls[1..], t, m)
  }

  /** Nobody but the holder of a mutex can make it let go, whatever the other threads do. */
  lemma {:induction false} HolderKeeps(s: State, calls: seq<Call>, m: nat)
    requires Good(s) && Allowed(s, calls) && s.Owner(m) != 0 && HoldsOn(s, calls, s.Owner(m), m)
    ensures Run(s, calls).Owner(m) == s.Owner(m)
    decreases |calls|
  {
    assert MutexOk(s, {}, m);
    if calls != [] {
      StepHolds(s, calls[0], m);
      StepGood(s, calls[0]);
      HolderKeeps(Step(s, calls[0]), calls[1..], m);
    }
  }

  /** In every reachable state a waiter has something to wait for: another live thread holds its mutex, the thread it
      joins lives, the queue it sends to is full, the queue it receives from is empty. */
  lemma NobodyWaitsInVain(s: State, t: nat)
    requires Good(s) && s.St(t) == Waiting
    ensures match s.Queue(t)
      case MutexQ(m) => s.Owner(m) !in {0, t} && s.Live(s.Owner(m)) && s.Mutex(t) == m
      case JoinQ(j) => s.Live(j)
      case SendQ(i) => s.Mq(i).used >= s.Mq(i).count
      case RecvQ(i) => s.Mq(i).used == 0
      case WaitQ(_) => true
      case _ => false
  {
    assert WaitOk(s, t, {}) && ThreadOk(s, {}, t) && Placed(s, {}, t) && ParkedOk(s, t);
    if s.Queue(t).MutexQ? { assert MutexOk(s, {}, s.Queue(t).m); }
  }

  // ----- messages

  lemma MqSound(s: State, k: nat)
    requires Good(s)
    ensures MqOk(s.Mq(k))
  {
    assert MqOk(At(s.a.mq, k, MsgQueue(0, 0, 0, [])));
  }

  ghost predicate Touches(c: Call, k: nat) {
    match c
    case InitQueue(i, _) => i == k
    case Send(i, _, _, _) => i == k
    case Receive(i, _) => i == k
    case _ => false
  }

  lemma QuietMq(s: State, c: Call, k: nat)
    requires Quiet(c) && !Touches(c, k)
    ensures Step(s, c).Mq(k) == s.Mq(k)
  {
    match c
    case Resume(t) => ResumeHoldings(s, t);
    case Suspend(t) => SuspendHoldings(s, t);
    case Send(i, msg, block, front) => SendAttrs(s, i, msg, block, front);
    case Receive(i, block) => ReceiveAttrs(s, i, block);
    case Create(t, p, detach) =>
    case Sleep(j) =>
    case Wakeup(j) =>
    case Yield =>
    case InitQueue(i, n) =>
    case DisableScheduler =>
    case EnableScheduler =>
  }

  lemma UntouchedMq(s: State, c: Call, k: nat)
    requires Good(s) && Enabled(s, c) && !Touches(c, k)
    ensures Step(s, c).Mq(k) == s.Mq(k)
  {
    if Quiet(c) {
      QuietMq(s, c, k);
    } else {
      match c
      case Exit(v) => ExitHoldings(s, v);
      case Cancel(t) => if s.Live(t) { CancelHoldings(s, t); }
      case Lock(n) => LockHoldings(s, n, c, 0);
      case TryLock(n) =>
      case Unlock(n) => UnlockHoldings(s, n, 0);
      case Retry => RetryHolds(s, 0);
    }
  }

  /** The message that a call puts into queue `k`, if it puts one in. */
  function Given(s: State, c: Call, k: nat): seq<int> {
    if c.Send? && c.i == k && C.Send(s, k, c.msg, c.block, c.front).1 then [c.msg] else []
  }

  /** The message that a call takes out of queue `k`, if it takes one out. */
  function Taken(s: State, c: Call, k: nat): seq<int> {
    if c.Receive? && c.i == k && C.Receive(s, k, c.block).2 then [C.Receive(s, k, c.block).1] else []
  }

  predicate ToFront(c: Call) { c.Send? && c.front }

  lemma NothingJoins(held: seq<int>)
    ensures [] + held == held && held + [] == held
  {
  }

  lemma SendStep(s: State, c: Call, k: nat)
    requires Good(s) && Enabled(s, c) && c.Send? && c.i == k
    ensures MqOk(s.Mq(k)) && MqOk(Step(s, c).Mq(k))
    ensures var held, held' := Contents(s.Mq(k)), Contents(Step(s, c).Mq(k));
      && Taken(s, c, k) == []
      && held' == if ToFront(c) then Given(s, c, k) + held else held + Given(s, c, k)
  {
    hide Good, C.Send, MqOk, Contents, Dispatched;
    SendGood(s, k, c.msg, c.block, c.front);
    NothingJoins(Contents(s.Mq(k)));
  }

  lemma ReceiveStep(s: State, c: Call, k: nat)
    requires Good(s) && Enabled(s, c) && c.Receive? && c.i == k
    ensures MqOk(s.Mq(k)) && MqOk(Step(s, c).Mq(k))
    ensures Given(s, c, k) == [] && Contents(s.Mq(k)) == Taken(s, c, k) + Contents(Step(s, c).Mq(k))
  {
    hide Good, C.Receive, MqOk, Contents, Dispatched;
    ReceiveGood(s, k, c.block);
  }

  lemma StepMessages(s: State, c: Call, k: nat)
    requires Good(s) && Enabled(s, c) && !(c.InitQueue? && c.i == k)
    ensures MqOk(s.Mq(k)) && MqOk(Step(s, c).Mq(k))
    ensures var held, held' := Contents(s.Mq(k)), Contents(Step(s, c).Mq(k));
      if ToFront(c) then held' == Given(s, c, k) + held else held + Given(s, c, k) == Taken(s, c, k) + held'
  {
    hide Good, Enabled, Step, C.Send, C.Receive, MqOk, Contents;
    MqSound(s, k);
    NothingJoins(Contents(s.Mq(k)));
    if !Touches(c, k) {
      UntouchedMq(s, c, k);
    } else if c.Send? {
      SendStep(s, c, k);
      NothingJoins(Contents(Step(s, c).Mq(k)));
    } else {
      ReceiveStep(s, c, k);
    }
  }

  /** A queue's capacity is what it was set up with. */
  lemma StepCapacity(s: State, c: Call, k: nat)
    requires Good(s) && Enabled(s, c)
    ensures Step(s, c).Mq(k).count == if c.InitQueue? && c.i == k then c.n else s.Mq(k).count
  {
    if !Touches(c, k) {
      UntouchedMq(s, c, k);
    } else {
      hide Good, Enabled;
      match c
      case InitQueue(_, n) => SetUp(s, k, n);
      case Send(_, msg, block, front) => SendCapacity(s, k, msg, block, front);
      case Receive(_, block) => ReceiveCapacity(s, k, block);
    }
  }

  lemma SendCapacity(s: State, k: nat, msg: int, block: bool, front: bool)
    ensures C.Send(s, k, msg, block, front).0.Mq(k).count == s.Mq(k).count
  {
    SleepAttrs(s, SendQ(k));
    hide C.Sleep;
  }

  lemma ReceiveCapacity(s: State, k: nat, block: bool)
    ensures C.Receive(s, k, block).0.Mq(k).count == s.Mq(k).count
  {
    SleepAttrs(s, RecvQ(k));
    hide C.Sleep;
  }

  /** A queue that has been set up is empty and has the capacity asked for. */
  lemma SetUp(s: State, k: nat, n: int)
    ensures var u := C.InitQueue(s, k, n).Mq(k);
      u.count == n && (n <= 16 ==> MqOk(u) && Contents(u) == [])
  {
  }

  lemma {:induction false} RunCapacity(s: State, calls: seq<Call>, k: nat)
    requires Good(s) && Allowed(s, calls) && NoReset(calls, k)
    ensures Run(s, calls).Mq(k).count == s.Mq(k).count
    decreases |calls|
  {
    if calls != [] {
      StepCapacity(s, calls[0], k);
      StepGood(s, calls[0]);
      RunCapacity(Step(s, calls[0]), calls[1..], k);
    }
  }

  /** After a queue is set up for `n` messages, and through any run that does not set it up again, a message is taken
      from a sender exactly while it holds fewer than `n`. */
  lemma TakenWhileRoom(s: State, k: nat, n: int, calls: seq<Call>, c: Call)
    requires Good(s) && Enabled(s, InitQueue(k, n)) && Allowed(Step(s, InitQueue(k, n)), calls) && NoReset(calls, k)
    requires Enabled(Run(Step(s, InitQueue(k, n)), calls), c) && c.Send? && c.i == k
    ensures var s' := Run(Step(s, InitQueue(k, n)), calls);
      MqOk(s'.Mq(k)) && (Given(s', c, k) == [c.msg] <==> |Contents(s'.Mq(k))| < n)
  {
    var s0 := Step(s, InitQueue(k, n));
    StepCapacity(s, InitQueue(k, n), k);
    StepGood(s, InitQueue(k, n));
    RunCapacity(s0, calls, k);
    RunGood(s0, calls);
    hide Good, Step, Run, MqOk, Contents, C.Send;
    GivenIff(Run(s0, calls), c, k);
  }

  lemma GivenIff(s: State, c: Call, k: nat)
    requires Good(s) && Enabled(s, c) && c.Send? && c.i == k
    ensures MqOk(s.Mq(k)) && (Given(s, c, k) == [c.msg] <==> |Contents(s.Mq(k))| < s.Mq(k).count)
  {
    hide Good, C.Send, MqOk, Contents, Dispatched;
    SendGood(s, k, c.msg, c.block, c.front);
  }

  ghost function AllGiven(s: State, calls: seq<Call>, k: nat): seq<int>
    decreases |calls|
  {
    if calls == [] then [] else Given(s, calls[0], k) + AllGiven(Step(s, calls[0]), calls[1..], k)
  }

  ghost function AllTaken(s: State, calls: seq<Call>, k: nat): seq<int>
    decreases |calls|
  {
    if calls == [] then [] else Taken(s, calls[0], k) + AllTaken(Step(s, calls[0]), calls[1..], k)
  }

  predicate NoReset(calls: seq<Call>, k: nat) {
    forall i :: 0 <= i < |calls| ==> !(calls[i].InitQueue? && calls[i].i == k)
  }

  predicate BackOnly(calls: seq<Call>) {
    forall i :: 0 <= i < |calls| ==> !ToFront(calls[i])
  }

  lemma Splice(a: seq<int>, b: seq<int>, c: seq<int>, d: seq<int>, e: seq<int>, f: seq<int>, g: seq<int>)
    requires a + b == c + d && d + e == f + g
    ensures a + (b + e) == (c + f) + g
  {
    assert a + (b + e) == (a + b) + e == (c + d) + e == c + (d + e) == c + (f + g);
  }

  /** First in, first out, over every run: what was held and then sent is, in this order, what was received and is still
      held. No message is lost, doubled or overtaken. */
  lemma {:induction false} MessagesInOrder(s: State, calls: seq<Call>, k: nat)
    requires Good(s) && Allowed(s, calls) && NoReset(calls, k) && BackOnly(calls)
    ensures MqOk(s.Mq(k)) && MqOk(Run(s, calls).Mq(k))
    ensures Contents(s.Mq(k)) + AllGiven(s, calls, k) == AllTaken(s, calls, k) + Contents(Run(s, calls).Mq(k))
    decreases |calls|
  {
    MqSound(s, k);
    if calls != [] {
      var c, s1 := calls[0], Step(s, calls[0]);
      StepMessages(s, c, k);
      StepGood(s, c);
      MessagesInOrder(s1, calls[1..], k);
      hide *;
      Splice(Contents(s.Mq(k)), Given(s, c, k), Taken(s, c, k), Contents(s1.Mq(k)), AllGiven(s1, calls[1..], k),
             AllTaken(s1, calls[1..], k), Contents(Run(s1, calls[1..]).Mq(k)));
    }
  }

  lemma StepConserves(s: State, c: Call, k: nat)
    requires Good(s) && Enabled(s, c) && !(c.InitQueue? && c.i == k)
    ensures MqOk(s.Mq(k)) && MqOk(Step(s, c).Mq(k))
    ensures multiset(Contents(s.Mq(k)) + Given(s, c, k)) == multiset(Taken(s, c, k) + Contents(Step(s, c).Mq(k)))
  {
    StepMessages(s, c, k);
    assert ToFront(c) ==> Taken(s, c, k) == [];
    hide *;
    EitherEnd(Contents(s.Mq(k)), Given(s, c, k), Taken(s, c, k), Contents(Step(s, c).Mq(k)));
  }

  lemma EitherEnd(a: seq<int>, g: seq<int>, t: seq<int>, b: seq<int>)
    requires (t == [] && b == g + a) || a + g == t + b
    ensures multiset(a + g) == multiset(t + b)
  {
    assert multiset(a + g) == multiset(g + a);
    if t == [] { assert t + b == b; }
  }

  lemma SameCounts(a: seq<int>, b: seq<int>, c: seq<int>, d: seq<int>, e: seq<int>, f: seq<int>, g: seq<int>)
    requires multiset(a + b) == multiset(c + d) && multiset(d + e) == multiset(f + g)
    ensures multiset(a + (b + e)) == multiset((c + f) + g)
  {
    assert multiset(a + (b + e)) == multiset(a + b) + multiset(e);
    assert multiset((c + f) + g) == multiset(c) + multiset(f + g);
  }

  /** With messages jammed to the front as well, none is lost or doubled. */
  lemma {:induction false} MessagesConserved(s: State, calls: seq<Call>, k: nat)
    requires Good(s) && Allowed(s, calls) && NoReset(calls, k)
    ensures MqOk(s.Mq(k)) && MqOk(Run(s, calls).Mq(k))
    ensures multiset(Contents(s.Mq(k)) + AllGiven(s, calls, k)) ==
      multiset(AllTaken(s, calls, k) + Contents(Run(s, calls).Mq(k)))
    decreases |calls|
  {
    MqSound(s, k);
    if calls != [] {
      var c, s1 := calls[0], Step(s, calls[0]);
      StepConserves(s, c, k);
      StepGood(s, c);
      MessagesConserved(s1, calls[1..], k);
      hide *;
      SameCounts(Contents(s.Mq(k)), Given(s, c, k), Taken(s, c, k), Contents(s1.Mq(k)), AllGiven(s1, calls[1..], k),
                 AllTaken(s1, calls[1..], k), Contents(Run(s1, calls[1..]).Mq(k)));
    }
  }

  // ----- turns

  /** The running thread and the ready threads of its priority, in the order in which they will run. */
  function Peers(s: State): seq<nat> {
    [s.d.cur] + s.Q(RunQ(s.Prio(s.d.cur)))
  }

  function Rotated<T>(s: seq<T>): seq<T>
    requires s != []
  {
    s[1..] + [s[0]]
  }

  lemma PreemptMost(s: State)
    requires Good(s) && Dispatched(s) && s.d.cur != 0
    ensures var t, s1 := s.d.cur, C.Preempt(s);
      && s1.Q(RunQ(s.Prio(t))) == s.Q(RunQ(s.Prio(t))) + [t]
      && s1.d.bits != {} && B.Cntlzw(s1.d.bits) == s.Prio(t)
  {
    var t, s1 := s.d.cur, C.Preempt(s);
    assert ThreadOk(s, {}, t);
    PreemptWF(s, {});
    MostUrgent(s1, {});
    var p := B.Cntlzw(s1.d.bits);
    assert s1.Runnable(t);
    var u := s1.Q(RunQ(p))[0];
    assert u in s1.Q(RunQ(p)) && Located(s1, {}, RunQ(p), u) && ThreadOk(s1, {}, u);
    assert u != t ==> s.Runnable(u);
  }

  lemma YieldGood(s: State)
    requires Good(s) && Dispatched(s) && s.a.resched <= 0
    ensures Good(C.Yield(s)) && Dispatched(C.Yield(s)) && C.Yield(s).a == s.a
  {
    hide Good, Dispatched;
    StepGood(s, Call.Yield);
  }

  /** Yielding passes the processor on among the threads of equal priority, in turn. */
  lemma YieldRotates(s: State)
    requires Good(s) && Dispatched(s) && s.d.cur != 0 && s.a.resched <= 0
    ensures var s' := C.Yield(s);
      s'.d.cur != 0 && Peers(s') == Rotated(Peers(s)) && s'.a == s.a && Good(s') && Dispatched(s')
  {
    YieldGood(s);
    PreemptMost(s);
    var t, s1 := s.d.cur, C.Preempt(s);
    var p := s.Prio(t);
    assert ThreadOk(s, {}, t);
    assert C.Yield(s) == C.Take(s1, p);
    var s', l := C.Take(s1, p), s1.Q(RunQ(p));
    var n := l[0];
    PreemptWF(s, {});
    assert n in l && Located(s1, {}, RunQ(p), n) && ThreadOk(s1, {}, n) && ThreadOk(s1, {}, 0);
    assert s'.d.cur == n && s'.Prio(n) == p && s'.Q(RunQ(p)) == l[1..];
  }

  function Yields(s: State, n: nat): State {
    if n == 0 then s else C.Yield(Yields(s, n - 1))
  }

  lemma RotateOnce<T>(r: seq<T>, q: seq<T>, n: nat)
    requires 0 < n <= |r| && q == r[n - 1..] + r[..n - 1]
    ensures q != [] && Rotated(q) == r[n..] + r[..n]
    ensures n < |r| ==> Rotated(q)[0] == r[n]
    ensures n == |r| ==> Rotated(q)[0] == r[0]
  {
    assert q[0] == r[n - 1];
    assert r[..n] == r[..n - 1] + [r[n - 1]];
  }

  lemma YieldsStep(s: State, n: nat)
    ensures Yields(s, n) == if n == 0 then s else C.Yield(Yields(s, n - 1))
  {
    hide C.Yield;
  }

  lemma PeersHead(s: State)
    ensures Peers(s) != [] && Peers(s)[0] == s.d.cur
  {
  }

  /** Every thread of the running thread's priority has its turn: the `n`-th yield brings up the `n`-th of them, and
      after a full round all is as it was. */
  lemma {:induction false} RoundRobin(s: State, n: nat)
    requires Good(s) && Dispatched(s) && s.d.cur != 0 && s.a.resched <= 0 && n <= |Peers(s)|
    ensures var s', r := Yields(s, n), Peers(s);
      && Peers(s') == r[n..] + r[..n] && (n < |r| ==> s'.d.cur == r[n]) && (n == |r| ==> s'.d.cur == r[0])
      && s'.a == s.a && Good(s') && Dispatched(s') && s'.d.cur != 0
  {
    hide *;
    var r := Peers(s);
    YieldsStep(s, n);
    PeersHead(s);
    if n > 0 {
      RoundRobin(s, n - 1);
      var s1 := Yields(s, n - 1);
      YieldRotates(s1);
      PeersHead(C.Yield(s1));
      RotateOnce(r, Peers(s1), n);
    } else {
      assert r[0..] + r[..0] == r;
    }
  }
}
