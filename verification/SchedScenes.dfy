/** Two runs from start-up: one into a deadlock that outlives the thread that tightened it, one in which a thread
    waits for a mutex and is woken. */
module SchedScenes {
  import opened Lists
  import opened Sched
  import opened SchedInv
  import opened SchedChain
  import C = SchedCalls
  import opened SchedGood
  import opened SchedRuns
  import B = ReadyBits

  /** One field of threads 1 to 4, or of mutexes 1 and 2. */
  datatype Row<T> = Row(one: T, two: T, three: T, four: T)
  datatype Pair<T> = Pair(one: T, two: T)

  /** What there is to see of a state with four threads and two mutexes. */
  datatype Scene = Scene(
    susp: Row<int>, prio: Row<int>, mutex: Row<nat>, st: Row<ThreadState>, queue: Row<Qid>, own: Row<seq<nat>>,
    owner: Pair<nat>, count: Pair<int>, run3: seq<nat>, run16: seq<nat>, run20: seq<nat>, wait1: seq<nat>,
      wait2: seq<nat>,
    cur: nat, bits: set<nat>, hint: bool)

  ghost predicate ThreadIs(s: State, t: nat, base: int, susp: int, prio: int, mutex: nat, st: ThreadState, queue: Qid,
                           own: seq<nat>) {
    && s.Base(t) == base && s.Susp(t) == susp && s.Prio(t) == prio && s.Mutex(t) == mutex && s.St(t) == st
    && s.Queue(t) == queue && s.Own(t) == own && At(s.a.val, t, 0) == C.VAL_UNSET
  }

  /** Threads 1 and 2 have base priority 16, thread 3 has 3 and thread 4 has 20. */
  ghost predicate Looks(s: State, v: Scene) {
    && ThreadIs(s, 1, 16, v.susp.one, v.prio.one, v.mutex.one, v.st.one, v.queue.one, v.own.one)
    && ThreadIs(s, 2, 16, v.susp.two, v.prio.two, v.mutex.two, v.st.two, v.queue.two, v.own.two)
    && ThreadIs(s, 3, 3, v.susp.three, v.prio.three, v.mutex.three, v.st.three, v.queue.three, v.own.three)
    && ThreadIs(s, 4, 20, v.susp.four, v.prio.four, v.mutex.four, v.st.four, v.queue.four, v.own.four)
    && s.Owner(1) == v.owner.one && s.Owner(2) == v.owner.two && s.Count(1) == v.count.one && s.Count(2) == v.count.two
    && s.Q(RunQ(3)) == v.run3 && s.Q(RunQ(16)) == v.run16 && s.Q(RunQ(20)) == v.run20
    && s.Q(MutexQ(1)) == v.wait1 && s.Q(MutexQ(2)) == v.wait2
    && s.d.cur == v.cur && s.d.bits == v.bits && s.d.hint == v.hint && s.a.resched == 0 && !s.d.fault
  }

  const CROWD0: Scene := Scene(
    Row(0, 1, 1, 1), Row(16, 16, 3, 20), Row(0, 0, 0, 0), Row(Running, Ready, Ready, Ready),
    Row(NoQ, NoQ, NoQ, NoQ), Row([], [], [], []), Pair(0, 0), Pair(0, 0),
    [], [], [], [], [], 1, {}, false)

  const CROWD1: Scene := Scene(
    Row(0, 1, 1, 0), Row(16, 16, 3, 20), Row(0, 0, 0, 0), Row(Running, Ready, Ready, Ready),
    Row(NoQ, NoQ, NoQ, RunQ(20)), Row([], [], [], []), Pair(0, 0), Pair(0, 0),
    [], [], [4], [], [], 1, {11}, true)

  const CROWD2: Scene := Scene(
    Row(0, 1, 1, 0), Row(16, 16, 3, 20), Row(0, 0, 0, 0), Row(Running, Ready, Ready, Ready),
    Row(NoQ, NoQ, NoQ, RunQ(20)), Row([1], [], [], []), Pair(1, 0), Pair(1, 0),
    [], [], [4], [], [], 1, {11}, true)

  const CROWD3: Scene := Scene(
    Row(0, 0, 1, 0), Row(16, 16, 3, 20), Row(0, 0, 0, 0), Row(Running, Ready, Ready, Ready),
    Row(NoQ, RunQ(16), NoQ, RunQ(20)), Row([1], [], [], []), Pair(1, 0), Pair(1, 0),
    [], [2], [4], [], [], 1, {11, 15}, true)

  const CROWD4: Scene := Scene(
    Row(0, 0, 1, 0), Row(16, 16, 3, 20), Row(0, 0, 0, 0), Row(Ready, Running, Ready, Ready),
    Row(RunQ(16), NoQ, NoQ, RunQ(20)), Row([1], [], [], []), Pair(1, 0), Pair(1, 0),
    [], [1], [4], [], [], 2, {11, 15}, false)

  const CROWD5: Scene := Scene(
    Row(0, 0, 1, 0), Row(16, 16, 3, 20), Row(0, 0, 0, 0), Row(Ready, Running, Ready, Ready),
    Row(RunQ(16), NoQ, NoQ, RunQ(20)), Row([1], [2], [], []), Pair(1, 2), Pair(1, 1),
    [], [1], [4], [], [], 2, {11, 15}, false)

  const CROWD6: Scene := Scene(
    Row(0, 0, 1, 0), Row(16, 16, 3, 20), Row(0, 1, 0, 0), Row(Running, Waiting, Ready, Ready),
    Row(NoQ, MutexQ(1), NoQ, RunQ(20)), Row([1], [2], [], []), Pair(1, 2), Pair(1, 1),
    [], [], [4], [2], [], 1, {11}, false)

  const CROWD7: Scene := Scene(
    Row(0, 0, 1, 0), Row(16, 16, 3, 20), Row(2, 1, 0, 0), Row(Waiting, Waiting, Ready, Running),
    Row(MutexQ(2), MutexQ(1), NoQ, NoQ), Row([1], [2], [], []), Pair(1, 2), Pair(1, 1),
    [], [], [], [2], [1], 4, {}, false)

  const CROWD8: Scene := Scene(
    Row(0, 0, 0, 0), Row(16, 16, 3, 20), Row(2, 1, 0, 0), Row(Waiting, Waiting, Running, Ready),
    Row(MutexQ(2), MutexQ(1), NoQ, RunQ(20)), Row([1], [2], [], []), Pair(1, 2), Pair(1, 1),
    [], [], [4], [2], [1], 3, {11}, false)

  const CROWD9: Scene := Scene(
    Row(0, 0, 0, 0), Row(3, 3, 3, 20), Row(2, 1, 1, 0), Row(Waiting, Waiting, Waiting, Running),
    Row(MutexQ(2), MutexQ(1), MutexQ(1), NoQ), Row([1], [2], [], []), Pair(1, 2), Pair(1, 1),
    [], [], [], [2, 3], [1], 4, {}, false)

  const DEADLOCK: Scene := Scene(
    Row(0, 0, 1, 0), Row(3, 3, 32, 20), Row(2, 1, 1, 0), Row(Waiting, Waiting, Waiting, Running),
    Row(MutexQ(2), MutexQ(1), MutexQ(1), NoQ), Row([1], [2], [], []), Pair(1, 2), Pair(1, 1),
    [], [], [], [2, 3], [1], 4, {}, false)

  const WOKEN1: Scene := Scene(
    Row(0, 0, 1, 0), Row(16, 16, 3, 20), Row(0, 1, 0, 0), Row(Running, Waiting, Ready, Ready),
    Row(NoQ, MutexQ(1), NoQ, RunQ(20)), Row([1], [], [], []), Pair(1, 0), Pair(1, 0),
    [], [], [4], [2], [], 1, {11}, false)

  const WOKEN2: Scene := Scene(
    Row(0, 0, 1, 0), Row(16, 16, 3, 20), Row(0, 1, 0, 0), Row(Running, Ready, Ready, Ready),
    Row(NoQ, RunQ(16), NoQ, RunQ(20)), Row([], [], [], []), Pair(0, 0), Pair(0, 0),
    [], [2], [4], [], [], 1, {11, 15}, true)

  const WOKEN3: Scene := Scene(
    Row(0, 0, 1, 0), Row(16, 16, 3, 20), Row(0, 1, 0, 0), Row(Ready, Running, Ready, Ready),
    Row(RunQ(16), NoQ, NoQ, RunQ(20)), Row([], [], [], []), Pair(0, 0), Pair(0, 0),
    [], [1], [4], [], [], 2, {11, 15}, false)

  // ----- what single calls come to, by the branches they take

  lemma First(bits: set<nat>, p: nat)
    requires p < 32 && 31 - p in bits && forall b :: b in bits ==> b <= 31 - p
    ensures B.Cntlzw(bits) == p
  {
    var n := B.Cntlzw(bits);
    assert B.Has(bits, p);
    assert n < 32 ==> B.Has(bits, n);
  }

  ghost predicate Competes(s: State, t: nat, p: nat, l: seq<nat>) {
    && s.St(t) == Ready && s.Susp(t) == 1 && s.Own(t) == [] && s.Base(t) == s.Prio(t) == p < 32 && s.Q(RunQ(p)) == l
    && s.d.cur != 0 && s.d.cur != t && s.St(s.d.cur) == Running && s.a.resched <= 0
  }

  function Joined(s: State, t: nat, p: nat): State
    requires p < 32
  {
    State(s.a.(susp := s.a.susp[t := 0], prio := s.a.prio[t := p]),
      s.d.(queue := s.d.queue[t := RunQ(p)], q := s.d.q[RunQ(p) := [t]], bits := s.d.bits + {31 - p}, hint := true))
  }

  /** A thread that starts to compete, no more urgent than the running one. */
  lemma JoinsIn(s: State, t: nat, p: nat)
    requires Competes(s, t, p, []) && s.Prio(s.d.cur) <= p && forall b :: b in s.d.bits ==> b <= 31 - s.Prio(s.d.cur)
    ensures C.Resume(s, t) == Joined(s, t, p)
  {
    var x := SetRun(s.PutSusp(t, 0).PutPrio(t, p), t);
    assert [] + [t] == [t];
    assert C.Restart(s.PutSusp(t, 0), t) == x;
    assert B.Cntlzw(x.d.bits) < 32 ==> B.Has(x.d.bits, B.Cntlzw(x.d.bits));
  }

  function TookOver(s: State, t: nat, p: nat, c: nat): State
    requires p < 32 && c < 32
  {
    var o := s.d.cur;
    State(s.a.(susp := s.a.susp[t := 0], prio := s.a.prio[t := p]),
      Dispatcher(s.d.st[o := Ready][t := Running], s.d.queue[t := RunQ(p)][o := RunQ(c)][t := NoQ],
                 s.d.q[RunQ(p) := [t]][RunQ(c) := [o]][RunQ(p) := []], t, s.d.bits + {31 - c}, false, s.d.fault))
  }

  /** A thread that starts to compete, more urgent than the running one, whose run queue is empty. */
  lemma TakesOver(s: State, t: nat, p: nat, c: nat)
    requires Competes(s, t, p, []) && s.Prio(s.d.cur) == c < 32 && p < c && s.Q(RunQ(c)) == []
    requires forall b :: b in s.d.bits ==> b < 31 - p
    ensures C.Resume(s, t) == TookOver(s, t, p, c)
  {
    var o := s.d.cur;
    var x := SetRun(s.PutSusp(t, 0).PutPrio(t, p), t);
    assert C.Restart(s.PutSusp(t, 0), t) == x && x.Q(RunQ(p)) == [t];
    First(x.d.bits, p);
    var y := C.Preempt(x);
    First(y.d.bits, p);
    assert y.Q(RunQ(p)) == [t] && [t][1..] == [] && [] + [o] == [o];
    assert C.Resume(s, t) == C.Take(y, p);
    assert s.d.bits + {31 - p} + {31 - c} - {31 - p} == s.d.bits + {31 - c};
  }

  function Slept(s: State, k: Qid, r: seq<nat>, p: nat, n: nat): State
    requires p < 32
  {
    var t := s.d.cur;
    s.(d := Dispatcher(s.d.st[t := Waiting][n := Running], s.d.queue[t := k][n := NoQ],
                       s.d.q[k := r][RunQ(p) := []], n, s.d.bits - {31 - p}, false, s.d.fault))
  }

  /** The running thread parks, which makes queue `k` into `r`, and thread `n` of run queue `p` runs. */
  lemma SleepsFor(s: State, k: Qid, r: seq<nat>, p: nat, n: nat)
    requires p < 32 && 31 - p in s.d.bits && (forall b :: b in s.d.bits ==> b <= 31 - p) && s.Q(RunQ(p)) == [n]
    requires s.a.resched <= 0 && !k.RunQ? && s.d.cur != 0
    requires Insert(s.Q(k), s.d.cur, s.a.prio) == r
    ensures C.Sleep(s, k) == Slept(s, k, r, p, n)
  {
    var t := s.d.cur;
    var x := Park(s.PutSt(t, Waiting).PutQueue(t, k), t).Hint().PutCur(0);
    First(s.d.bits, p);
    assert x.Q(RunQ(p)) == [n] && [n][1..] == [];
    assert C.Sleep(s, k) == C.Take(x, p);
  }

  function Yielded(s: State, p: nat, n: nat): State {
    var o := s.d.cur;
    s.(d := Dispatcher(s.d.st[o := Ready][n := Running], s.d.queue[o := RunQ(p)][n := NoQ],
                       s.d.q[RunQ(p) := [n, o]][RunQ(p) := [o]], n, s.d.bits, false, s.d.fault))
  }

  /** The running thread goes to the back of its run queue, and the head of the queue runs. */
  lemma YieldsTo(s: State, p: nat, n: nat)
    requires s.d.cur != 0 && s.St(s.d.cur) == Running && s.Prio(s.d.cur) == p < 32 && s.a.resched <= 0
    requires (forall b :: b in s.d.bits ==> b <= 31 - p) && s.Q(RunQ(p)) == [n] && n != s.d.cur && 31 - p in s.d.bits
    ensures C.Yield(s) == Yielded(s, p, n)
  {
    var o, y := s.d.cur, C.Preempt(s);
    First(y.d.bits, p);
    assert [n] + [o] == [n, o] && [n, o][1..] == [o];
    assert y.Q(RunQ(p)) == [n, o];
    assert C.Yield(s) == C.Take(y, p);
    assert s.d.bits + {31 - p} == s.d.bits;
  }

  function Got(s: State, m: nat): State {
    var t := s.d.cur;
    s.(a := s.a.(owner := s.a.owner[m := t], count := s.a.count[m := 1], own := s.a.own[t := [m]]))
  }

  lemma LocksFree(s: State, m: nat)
    requires s.Owner(m) == 0 && s.Count(m) == 0 && s.Own(s.d.cur) == []
    ensures C.Lock(s, m) == Got(s, m)
  {
    assert [] + [m] == [m];
  }

  /** A mutex is taken whose owner is already as urgent as the running thread. */
  lemma LocksHeld(s: State, m: nat, o: nat)
    requires s.Owner(m) == o && o != 0 && o != s.d.cur && 0 <= s.Prio(s.d.cur) && s.Prio(o) <= s.Prio(s.d.cur)
    ensures C.Lock(s, m) == C.Sleep(s.PutMutex(s.d.cur, m), MutexQ(m))
  {
    assert Promote(s.PutMutex(s.d.cur, m), o, s.Prio(s.d.cur)) == s.PutMutex(s.d.cur, m);
  }

  /** The running thread finds the mutex held, nobody waiting, and its owner as urgent as itself. */
  lemma ParksOn(s: State, m: nat, o: nat, p: nat, n: nat)
    requires s.Owner(m) == o && o != 0 && o != s.d.cur && 0 <= s.Prio(s.d.cur) && s.Prio(o) <= s.Prio(s.d.cur)
    requires p < 32 && 31 - p in s.d.bits && (forall b :: b in s.d.bits ==> b <= 31 - p) && s.Q(RunQ(p)) == [n]
    requires s.a.resched <= 0 && s.d.cur != 0 && s.Q(MutexQ(m)) == []
    ensures var t := s.d.cur; C.Lock(s, m) == Slept(s.PutMutex(t, m), MutexQ(m), [t], p, n)
  {
    LocksHeld(s, m, o);
    var x := s.PutMutex(s.d.cur, m);
    InsertAlone(s.d.cur, x.a.prio);
    hide C.Sleep, Slept, C.Lock;
    SleepsFor(x, MutexQ(m), [s.d.cur], p, n);
  }

  lemma InsertAlone(n: nat, key: map<nat, int>)
    ensures Insert([], n, key) == [n]
  {
  }

  lemma InsertSecond(a: nat, n: nat, key: map<nat, int>)
    requires At(key, a, 0) <= At(key, n, 0)
    ensures Insert([a], n, key) == [a, n]
  {
    assert InsertPos([a][1..], key, At(key, n, 0)) == 0;
    assert InsertPos([a], key, At(key, n, 0)) == 1;
  }

  lemma LockIs(s: State, m: nat)
    requires m != 0 && s.d.cur != 0 && s.a.resched <= 0
    ensures Enabled(s, Lock(m)) && Step(s, Lock(m)) == C.Lock(s, m)
  {
    hide C.Lock;
  }

  // ----- the run into the deadlock

  lemma Scene1Sees(s: State)
    requires Looks(s, CROWD0)
    ensures Looks(Joined(s, 4, 20), CROWD1)
  {
  }

  lemma Scene1(s: State)
    requires Looks(s, CROWD0)
    ensures Enabled(s, Resume(4)) && Looks(Step(s, Resume(4)), CROWD1)
  {
    hide Joined, TookOver, Slept, Yielded, C.Resume, C.Lock, C.Sleep, C.Yield, C.Unlock;
    JoinsIn(s, 4, 20);
    Scene1Sees(s);
  }

  lemma Scene2Sees(s: State)
    requires Looks(s, CROWD1)
    ensures Looks(Got(s, 1), CROWD2)
  {
  }

  lemma Scene2(s: State)
    requires Looks(s, CROWD1)
    ensures Enabled(s, Lock(1)) && Looks(Step(s, Lock(1)), CROWD2)
  {
    hide Joined, TookOver, Slept, Yielded, C.Resume, C.Lock, C.Sleep, C.Yield, C.Unlock;
    LocksFree(s, 1);
    Scene2Sees(s);
  }

  lemma Scene3Sees(s: State)
    requires Looks(s, CROWD2)
    ensures Looks(Joined(s, 2, 16), CROWD3)
  {
  }

  lemma Scene3(s: State)
    requires Looks(s, CROWD2)
    ensures Enabled(s, Resume(2)) && Looks(Step(s, Resume(2)), CROWD3)
  {
    hide Joined, TookOver, Slept, Yielded, C.Resume, C.Lock, C.Sleep, C.Yield, C.Unlock;
    JoinsIn(s, 2, 16);
    Scene3Sees(s);
  }

  lemma Scene4Sees(s: State)
    requires Looks(s, CROWD3)
    ensures Looks(Yielded(s, 16, 2), CROWD4)
  {
  }

  lemma Scene4(s: State)
    requires Looks(s, CROWD3)
    ensures Enabled(s, Call.Yield) && Looks(Step(s, Call.Yield), CROWD4)
  {
    hide Joined, TookOver, Slept, Yielded, C.Resume, C.Lock, C.Sleep, C.Yield, C.Unlock;
    YieldsTo(s, 16, 2);
    Scene4Sees(s);
  }

  lemma Scene5Sees(s: State)
    requires Looks(s, CROWD4)
    ensures Looks(Got(s, 2), CROWD5)
  {
  }

  lemma Scene5(s: State)
    requires Looks(s, CROWD4)
    ensures Enabled(s, Lock(2)) && Looks(Step(s, Lock(2)), CROWD5)
  {
    hide Joined, TookOver, Slept, Yielded, C.Resume, C.Lock, C.Sleep, C.Yield, C.Unlock;
    LocksFree(s, 2);
    Scene5Sees(s);
  }

  lemma Scene6Sees(s: State)
    requires Looks(s, CROWD5)
    ensures Looks(Slept(s.PutMutex(2, 1), MutexQ(1), [2], 16, 1), CROWD6)
  {
  }

  lemma Scene6(s: State)
    requires Looks(s, CROWD5)
    ensures Enabled(s, Lock(1)) && Looks(Step(s, Lock(1)), CROWD6)
  {
    hide Enabled, Step, Promote, SetEffective, Effective, Slept, C.Lock, C.Sleep;
    LockIs(s, 1);
    ParksOn(s, 1, 1, 16, 1);
    Scene6Sees(s);
  }

  lemma Scene7Sees(s: State)
    requires Looks(s, CROWD6)
    ensures Looks(Slept(s.PutMutex(1, 2), MutexQ(2), [1], 20, 4), CROWD7)
  {
  }

  lemma Scene7(s: State)
    requires Looks(s, CROWD6)
    ensures Enabled(s, Lock(2)) && Looks(Step(s, Lock(2)), CROWD7)
  {
    hide Enabled, Step, Promote, SetEffective, Effective, Slept, C.Lock, C.Sleep;
    LockIs(s, 2);
    ParksOn(s, 2, 2, 20, 4);
    Scene7Sees(s);
  }

  lemma Scene8Sees(s: State)
    requires Looks(s, CROWD7)
    ensures Looks(TookOver(s, 3, 3, 20), CROWD8)
  {
  }

  lemma Scene8(s: State)
    requires Looks(s, CROWD7)
    ensures Enabled(s, Resume(3)) && Looks(Step(s, Resume(3)), CROWD8)
  {
    hide Joined, TookOver, Slept, Yielded, C.Resume, C.Lock, C.Sleep, C.Yield, C.Unlock;
    TakesOver(s, 3, 3, 20);
    Scene8Sees(s);
  }

  // ----- the chain of two owners, and the thread that tightened it

  lemma WithoutOnly(n: nat)
    ensures Without([n], n) == []
  {
  }

  lemma WithoutSecond(a: nat, b: nat)
    requires a != b
    ensures Without([a, b], b) == [a]
  {
    WithoutAt([a, b], 1);
  }

  lemma RequeueAlone(s: State, t: nat, p: int, k: Qid)
    requires s.Queue(t) == k && s.Q(k) == [t]
    ensures Requeue(s, t, p) == s.PutPrio(t, p)
  {
    WithoutOnly(t);
    InsertAlone(t, s.a.prio[t := p]);
    assert s.d.q[k := []][k := [t]] == s.d.q;
  }

  lemma PromoteOnce(s: State, t: nat, p: nat, k: Qid)
    requires s.Susp(t) == 0 && s.Prio(t) > p && s.St(t) == Waiting && s.Queue(t) == k && k != NoQ && s.Q(k) == [t]
    requires s.Mutex(t) != 0 && s.Owner(s.Mutex(t)) != 0
    ensures Promote(s, t, p) == Promote(s.PutPrio(t, p), s.Owner(s.Mutex(t)), p)
  {
    RequeueAlone(s, t, p, k);
    hide Requeue;
    assert SetEffective(s, t, p) == (s.PutPrio(t, p), s.Owner(s.Mutex(t)));
  }

  function Tightened(s: State): State {
    s.PutMutex(3, 1).PutPrio(1, 3).PutPrio(2, 3)
  }

  lemma Promotes(s: State)
    requires Looks(s, CROWD8)
    ensures Promote(s.PutMutex(3, 1), 1, 3) == Tightened(s) && C.Lock(s, 1) == C.Sleep(Tightened(s), MutexQ(1))
  {
    var x := s.PutMutex(3, 1);
    PromoteOnce(x, 1, 3, MutexQ(2));
    PromoteOnce(x.PutPrio(1, 3), 2, 3, MutexQ(1));
    assert Tightened(s).Prio(1) == 3;
    assert Promote(Tightened(s), 1, 3) == Tightened(s);
    hide C.Sleep;
  }

  lemma Scene9Sees(s: State)
    requires Looks(s, CROWD8)
    ensures Looks(Slept(Tightened(s), MutexQ(1), [2, 3], 20, 4), CROWD9)
  {
  }

  lemma Scene9(s: State)
    requires Looks(s, CROWD8)
    ensures Enabled(s, Lock(1)) && Looks(Step(s, Lock(1)), CROWD9)
  {
    hide Enabled, Step, Promote, SetEffective, Effective, Slept, C.Lock, C.Sleep;
    LockIs(s, 1);
    Promotes(s);
    InsertSecond(2, 3, Tightened(s).a.prio);
    SleepsFor(Tightened(s), MutexQ(1), [2, 3], 20, 4);
    Scene9Sees(s);
  }

  function Sank(s: State): State {
    State(s.a.(susp := s.a.susp[3 := 1], prio := s.a.prio[3 := 32]),
          s.d.(q := s.d.q[MutexQ(1) := [2]][MutexQ(1) := [2, 3]]))
  }

  lemma SankSees(s: State)
    requires Looks(s, CROWD9)
    ensures Looks(Sank(s), DEADLOCK)
  {
  }

  lemma Sinks(s: State)
    requires Looks(s, CROWD9)
    ensures C.Suspend(s, 3) == C.Reschedule(C.Chase(Sank(s), 1, {}))
  {
    var x := s.PutSusp(3, 1);
    WithoutSecond(2, 3);
    assert [2] + [3] == [2 as nat, 3];
    var y := Unpark(x, 3).PutPrio(3, 32);
    assert y.PutQ(MutexQ(1), y.Q(MutexQ(1)) + [3]) == Sank(s);
    hide C.Chase;
    assert C.Halt(x, 3) == C.Notify(Sank(s), 3, {});
    assert Sank(s).Mutex(3) == 1 && Sank(s).Owner(1) == 1;
  }

  lemma FaultStays(s: State)
    ensures C.Reschedule(s.Fault()).d.fault
  {
  }

  lemma ChaseStops(s: State, t: nat, X: set<nat>)
    requires s.Prio(t) == Effective(s, t)
    ensures C.Chase(s, t, X) in {s, s.Fault()}
  {
  }

  lemma LeastOfOne(q: map<Qid, seq<nat>>, prio: map<nat, int>, m: nat, b: int, w: nat, l: seq<nat>)
    requires At(q, MutexQ(m), []) == l && |l| > 0 && l[0] == w && At(prio, w, 0) < b
    ensures Least(q, prio, [m], b) == At(prio, w, 0)
  {
    assert [m][..0] == [];
  }

  lemma Scene10(s: State)
    requires Looks(s, CROWD9) && Good(s)
    ensures Enabled(s, Suspend(3)) && Looks(Step(s, Suspend(3)), DEADLOCK)
  {
    StepGood(s, Suspend(3));
    Sinks(s);
    SankSees(s);
    var x := Sank(s);
    FaultStays(x);
    LeastOfOne(x.d.q, x.a.prio, 1, 16, 2, [2, 3]);
    assert x.Prio(1) == Effective(x, 1) == 3;
    hide Sank, C.Suspend, UpdateReady;
    ChaseStops(x, 1, {});
    assert C.Reschedule(x) == x;
  }

  // ----- the run with a wake-up

  lemma Wake1Sees(s: State)
    requires Looks(s, CROWD4)
    ensures Looks(Slept(s.PutMutex(2, 1), MutexQ(1), [2], 16, 1), WOKEN1)
  {
  }

  lemma Wake1(s: State)
    requires Looks(s, CROWD4)
    ensures Enabled(s, Lock(1)) && Looks(Step(s, Lock(1)), WOKEN1)
  {
    hide Enabled, Step, Promote, SetEffective, Effective, Slept, C.Lock, C.Sleep;
    LockIs(s, 1);
    ParksOn(s, 1, 1, 16, 1);
    Wake1Sees(s);
  }

  lemma Wake3Sees(s: State)
    requires Looks(s, WOKEN2)
    ensures Looks(Yielded(s, 16, 2), WOKEN3)
  {
  }

  lemma Wake3(s: State)
    requires Looks(s, WOKEN2)
    ensures Enabled(s, Call.Yield) && Looks(Step(s, Call.Yield), WOKEN3)
  {
    hide Joined, TookOver, Slept, Yielded, C.Resume, C.Lock, C.Sleep, C.Yield, C.Unlock;
    YieldsTo(s, 16, 2);
    Wake3Sees(s);
  }

  function Freed(s: State): State {
    State(s.a.(own := s.a.own[1 := []], owner := s.a.owner[1 := 0], count := s.a.count[1 := 0]),
          s.d.(st := s.d.st[2 := Ready], queue := s.d.queue[2 := RunQ(16)],
               q := s.d.q[MutexQ(1) := []][RunQ(16) := [2]], bits := s.d.bits + {15}, hint := true))
  }

  lemma WakesOnly(s: State, k: Qid, n: nat)
    requires !k.RunQ? && s.Q(k) == [n] && s.Susp(n) == 0
    ensures C.WakeAll(s, k) == SetRun(s.PutQ(k, []).PutSt(n, Ready), n)
  {
    var x := C.WakeOne(s, k);
    assert [n][1..] == [];
    assert x == SetRun(s.PutQ(k, []).PutSt(n, Ready), n) && x.Q(k) == [];
    assert C.WakeAll(s, k) == C.WakeAll(x, k) == x;
  }

  lemma Frees(s: State)
    requires Looks(s, WOKEN1)
    ensures C.Unlock(s, 1) == Freed(s)
  {
    WithoutOnly(1);
    var x := C.Release(s, 1);
    assert x == s.(a := s.a.(own := s.a.own[1 := []], owner := s.a.owner[1 := 0], count := s.a.count[1 := 0]));
    assert C.Unlock(s, 1) == C.Wakeup(x, MutexQ(1));
    hide C.Unlock, C.Release;
    WakesOnly(x, MutexQ(1), 2);
    assert [] + [2] == [2 as nat];
    assert SetRun(x.PutQ(MutexQ(1), []).PutSt(2, Ready), 2) == Freed(s);
    hide C.WakeAll, SetRun;
    First(Freed(s).d.bits, 16);
  }

  lemma Wake2Sees(s: State)
    requires Looks(s, WOKEN1)
    ensures Looks(Freed(s), WOKEN2)
  {
  }

  lemma Wake2(s: State)
    requires Looks(s, WOKEN1)
    ensures Enabled(s, Unlock(1)) && Looks(Step(s, Unlock(1)), WOKEN2)
  {
    hide Freed, Joined, TookOver, Slept, Yielded, C.Resume, C.Lock, C.Sleep, C.Yield, C.Unlock;
    Frees(s);
    Wake2Sees(s);
  }

  // ----- the runs

  lemma {:induction false} Further(s: State, calls: seq<Call>, c: Call)
    requires Allowed(s, calls) && Enabled(Run(s, calls), c)
    ensures Allowed(s, calls + [c]) && Run(s, calls + [c]) == Step(Run(s, calls), c)
    decreases |calls|
  {
    if calls == [] {
      assert (calls + [c])[1..] == [];
    } else {
      Further(Step(s, calls[0]), calls[1..], c);
      assert (calls + [c])[1..] == calls[1..] + [c];
    }
  }

  const BEGIN: seq<Call> := [Create(2, 16, true)] + [Create(3, 3, true)] + [Create(4, 20, true)]
  /** Thread 1 holds mutex 1, and thread 2 runs. */
  const HELD: seq<Call> := BEGIN + [Resume(4)] + [Lock(1)] + [Resume(2)] + [Call.Yield]
  /** Threads 1 and 2 wait for each other; thread 3 made both more urgent and was then suspended; thread 4 runs. */
  const TO_DEADLOCK: seq<Call> := HELD + [Lock(2)] + [Lock(1)] + [Lock(2)] + [Resume(3)] + [Lock(1)] + [Suspend(3)]
  /** Thread 2 waited for mutex 1, was woken, and runs. */
  const TO_WOKEN: seq<Call> := HELD + [Lock(1)] + [Unlock(1)] + [Call.Yield]

  /** No mutex is held and no thread queued. */
  ghost predicate Blank(s: State) {
    && s.Owner(1) == s.Owner(2) == 0 && s.Count(1) == s.Count(2) == 0
    && s.Q(RunQ(3)) == s.Q(RunQ(16)) == s.Q(RunQ(20)) == s.Q(MutexQ(1)) == s.Q(MutexQ(2)) == []
    && s.d.cur == 1 && s.d.bits == {} && !s.d.hint && s.a.resched == 0 && !s.d.fault
  }

  ghost predicate New(s: State, t: nat, p: int) {
    ThreadIs(s, t, p, 1, p, 0, Ready, NoQ, [])
  }

  lemma CreatedSees(s: State, t: nat, p: int)
    requires Blank(s) && 0 <= p <= 31 && t != 0 && s.St(t) == Dead
    ensures var s' := Step(s, Create(t, p, true));
      && Enabled(s, Create(t, p, true)) && Blank(s') && New(s', t, p) && (forall u :: u != t ==> s'.St(u) == s.St(u))
      && (forall u, q :: u != t && New(s, u, q) ==> New(s', u, q))
      && (t != 1 && ThreadIs(s, 1, 16, 0, 16, 0, Running, NoQ, []) ==> ThreadIs(s', 1, 16, 0, 16, 0, Running, NoQ, []))
  {
    var s' := C.Created(s, t, p, true);
    assert Step(s, Create(t, p, true)) == s';
    CreatedBlank(s, t, p);
    hide Blank, ThreadIs, Step, C.Created;
    forall u, q | u != t && New(s, u, q) ensures New(s', u, q) { CreatedElse(s, t, p, u, q, 1, Ready); }
    if t != 1 && ThreadIs(s, 1, 16, 0, 16, 0, Running, NoQ, []) { CreatedElse(s, t, p, 1, 16, 0, Running); }
  }

  lemma CreatedBlank(s: State, t: nat, p: int)
    requires Blank(s) && t != 0
    ensures var s' := C.Created(s, t, p, true);
      Blank(s') && New(s', t, p) && forall u :: u != t ==> s'.St(u) == s.St(u)
  {
  }

  lemma CreatedElse(s: State, t: nat, p: int, u: nat, q: int, susp: int, st: ThreadState)
    requires u != t && ThreadIs(s, u, q, susp, q, 0, st, NoQ, [])
    ensures ThreadIs(C.Created(s, t, p, true), u, q, susp, q, 0, st, NoQ, [])
  {
  }

  /** The first `n` of threads 2 to 4 have been created. */
  ghost predicate Begun(s: State, n: nat) {
    && Blank(s) && ThreadIs(s, 1, 16, 0, 16, 0, Running, NoQ, [])
    && (if n > 0 then New(s, 2, 16) else s.St(2) == Dead)
    && (if n > 1 then New(s, 3, 3) else s.St(3) == Dead)
    && (if n > 2 then New(s, 4, 20) else s.St(4) == Dead)
  }

  lemma BegunFurther(s: State, n: nat, t: nat, p: int)
    requires Begun(s, n) && (n, t, p) in {(0, 2, 16), (1, 3, 3), (2, 4, 20)}
    ensures Enabled(s, Create(t, p, true)) && Begun(Step(s, Create(t, p, true)), n + 1)
  {
    CreatedSees(s, t, p);
    hide Blank, ThreadIs, Step;
  }

  lemma AllBegun(s: State)
    requires Begun(s, 3)
    ensures Looks(s, CROWD0)
  {
  }

  lemma StartsBlank()
    ensures Begun(C.Init(1), 0)
  {
  }

  lemma FirstCall(s: State, c: Call)
    ensures Enabled(s, c) ==> Allowed(s, [c])
    ensures Run(s, [c]) == Step(s, c)
  {
    assert [c][1..] == [];
    hide Enabled, Step;
  }

  lemma BeginIs()
    ensures BEGIN == [Create(2, 16, true)] + [Create(3, 3, true)] + [Create(4, 20, true)]
  {
  }

  lemma Begins()
    ensures Allowed(C.Init(1), BEGIN) && Looks(Run(C.Init(1), BEGIN), CROWD0)
  {
    hide *;
    var s, c: seq<Call> := C.Init(1), [Create(2, 16, true)];
    FirstCall(s, c[0]);
    StartsBlank();
    BegunFurther(s, 0, 2, 16);
    BegunFurther(Run(s, c), 1, 3, 3);
    Further(s, c, Create(3, 3, true));
    c := c + [Create(3, 3, true)];
    BegunFurther(Run(s, c), 2, 4, 20);
    Further(s, c, Create(4, 20, true));
    BeginIs();
    AllBegun(Run(s, BEGIN));
  }

  lemma GetsHeld()
    ensures Allowed(C.Init(1), HELD) && Looks(Run(C.Init(1), HELD), CROWD4)
  {
    var s, c := C.Init(1), BEGIN;
    assert HELD == c + [Resume(4)] + [Lock(1)] + [Resume(2)] + [Call.Yield];
    hide *;
    Begins();
    Scene1(Run(s, c));
    Further(s, c, Resume(4));
    c := c + [Resume(4)];
    Scene2(Run(s, c));
    Further(s, c, Lock(1));
    c := c + [Lock(1)];
    Scene3(Run(s, c));
    Further(s, c, Resume(2));
    c := c + [Resume(2)];
    Scene4(Run(s, c));
    Further(s, c, Call.Yield);
  }

  lemma GetsDeadlocked()
    ensures Allowed(C.Init(1), TO_DEADLOCK) && Looks(Run(C.Init(1), TO_DEADLOCK), DEADLOCK)
  {
    var s, c := C.Init(1), HELD;
    assert TO_DEADLOCK == c + [Lock(2)] + [Lock(1)] + [Lock(2)] + [Resume(3)] + [Lock(1)] + [Suspend(3)];
    hide *;
    GetsHeld();
    Scene5(Run(s, c));
    Further(s, c, Lock(2));
    c := c + [Lock(2)];
    Scene6(Run(s, c));
    Further(s, c, Lock(1));
    c := c + [Lock(1)];
    Scene7(Run(s, c));
    Further(s, c, Lock(2));
    c := c + [Lock(2)];
    Scene8(Run(s, c));
    Further(s, c, Resume(3));
    c := c + [Resume(3)];
    Scene9(Run(s, c));
    Further(s, c, Lock(1));
    c := c + [Lock(1)];
    InitGood(1);
    RunGood(s, c);
    Scene10(Run(s, c));
    Further(s, c, Suspend(3));
  }

  lemma GetsWoken()
    ensures Allowed(C.Init(1), TO_WOKEN) && Looks(Run(C.Init(1), TO_WOKEN), WOKEN3)
  {
    var s, c := C.Init(1), HELD;
    assert TO_WOKEN == c + [Lock(1)] + [Unlock(1)] + [Call.Yield];
    hide *;
    GetsHeld();
    Wake1(Run(s, c));
    Further(s, c, Lock(1));
    c := c + [Lock(1)];
    Wake2(Run(s, c));
    Further(s, c, Unlock(1));
    c := c + [Unlock(1)];
    Wake3(Run(s, c));
    Further(s, c, Call.Yield);
  }
}
