/** The thread, mutex and message-queue calls as functions from state to state. */
module SchedCalls {
  import opened Lists
  import opened Sched
  import opened SchedInv
  import opened SchedChain
  import B = ReadyBits

  const VAL_UNSET: int := 0xFFFF_FFFF

  /** Runs the chain of `UpdatePriority`. The chain is followed only from states in which it is known to end. */
  ghost function Chase(s: State, t: nat, X: set<nat>): State {
    if UpdateReady(s, t, X) then Update(s, t, X) else s.Fault()
  }

  // ----- dispatch

  /** The running thread goes to the back of its run queue. */
  function Preempt(s: State): (r: State)
    ensures r.a == s.a
  {
    SetRun(s.PutSt(s.d.cur, Ready).PutCur(0), s.d.cur)
  }

  /** The head of run queue `p` takes the processor. */
  function Take(s: State, p: int): (r: State)
    requires s.Q(RunQ(p)) != []
    ensures r.a == s.a
  {
    var k := RunQ(p);
    var n, r := s.Q(k)[0], s.Q(k)[1..];
    s.(d := s.d.(hint := false, q := s.d.q[k := r], bits := Drained(s.d.bits, r, p),
                 queue := s.d.queue[n := NoQ], st := s.d.st[n := Running], cur := n))
  }

  /** The most urgent ready thread takes the processor, if there is one. */
  function Dispatch(s: State): (r: State)
    ensures r.a == s.a
  {
    if s.d.bits == {} then s
    else if s.Q(RunQ(B.Cntlzw(s.d.bits))) == [] then s.Fault()
    else Take(s, B.Cntlzw(s.d.bits))
  }

  function Select(s: State, yielding: bool): (r: State)
    ensures r.a == s.a
  {
    if 0 < s.a.resched then s
    else if s.d.cur == 0 || s.St(s.d.cur) != Running then Dispatch(s.PutCur(0))
    else if !yielding && s.Prio(s.d.cur) <= B.Cntlzw(s.d.bits) then s
    else Dispatch(Preempt(s))
  }

  function Reschedule(s: State): (r: State)
    ensures r.a == s.a
  {
    if s.d.hint then Select(s, false) else s
  }

  // ----- wake-up

  /** The head of queue `k` becomes ready, and runnable unless it is suspended. */
  function WakeOne(s: State, k: Qid): (r: State)
    requires s.Q(k) != []
    ensures r.a == s.a
  {
    var n := s.Q(k)[0];
    var s1 := s.PutQ(k, s.Q(k)[1..]).PutSt(n, Ready);
    if 0 < s.Susp(n) then s1 else SetRun(s1, n)
  }

  function WakeAll(s: State, k: Qid): (r: State)
    requires !k.RunQ?
    ensures r.a == s.a
    decreases |s.Q(k)|
  {
    if s.Q(k) == [] then s else WakeAll(WakeOne(s, k), k)
  }

  function Wakeup(s: State, k: Qid): (r: State)
    requires !k.RunQ?
    ensures r.a == s.a
  {
    Reschedule(WakeAll(s, k))
  }

  // ----- threads

  /** Only the default thread exists, and it runs. */
  function Init(t: nat): State {
    State(Attrs(map[t := 0], map[t := 16], map[t := 16], map[t := true], map[t := VAL_UNSET], map[t := 0],
                map[], map[], map[], map[], [t], 0),
          Dispatcher(map[t := Running], map[t := NoQ], map[], t, {}, false, false))
  }

  function Create(s: State, t: nat, p: int, detach: bool): State {
    if p < 0 || p > 31 then s else Created(s, t, p, detach)
  }

  /** A new thread: ready, suspended once, last of the active list. */
  function Created(s: State, t: nat, p: int, detach: bool): State {
    State(s.a.(susp := s.a.susp[t := 1], prio := s.a.prio[t := p], base := s.a.base[t := p],
               detached := s.a.detached[t := detach], val := s.a.val[t := VAL_UNSET], mutex := s.a.mutex[t := 0],
               own := s.a.own[t := []], active := s.a.active + [t]),
          s.d.(st := s.d.st[t := Ready], queue := s.d.queue[t := NoQ], q := s.d.q[JoinQ(t) := []]))
  }

  /** Carries a waiter's changed priority to the owner of the mutex it waits for, if any. */
  ghost function Notify(s: State, t: nat, X: set<nat>): State {
    if s.Mutex(t) != 0 then Chase(s, s.Owner(s.Mutex(t)), X) else s
  }

  /** The last suspension is lifted: the thread competes again, with a freshly computed priority. */
  ghost function Restart(s: State, t: nat): State {
    match s.St(t)
    case Ready => SetRun(s.PutPrio(t, Effective(s, t)), t)
    case Waiting =>
      var s1 := Unpark(s, t);
      Notify(Park(s1.PutPrio(t, Effective(s1, t)), t), t, {})
    case _ => s
  }

  ghost function Resume(s: State, t: nat): State {
    var c := s.Susp(t) - 1;
    if c < 0 then s.PutSusp(t, 0)
    else if c > 0 then s.PutSusp(t, c)
    else Reschedule(Restart(s.PutSusp(t, c), t))
  }

  /** The first suspension: the thread stops competing; a waiter sinks to priority 32 at the tail of its queue. */
  ghost function Halt(s: State, t: nat): State {
    match s.St(t)
    case Running => s.Hint().PutSt(t, Ready)
    case Ready => UnsetRun(s, t)
    case Waiting =>
      var k := s.Queue(t);
      var s1 := Unpark(s, t).PutPrio(t, 32);
      Notify(s1.PutQ(k, s1.Q(k) + [t]), t, {})
    case _ => s
  }

  ghost function Suspend(s: State, t: nat): State {
    var s0 := s.PutSusp(t, s.Susp(t) + 1);
    if s.Susp(t) != 0 then s0 else Reschedule(Halt(s0, t))
  }

  function Sleep(s: State, k: Qid): State {
    var t := s.d.cur;
    Reschedule(Park(s.PutSt(t, Waiting).PutQueue(t, k), t).Hint())
  }

  function Yield(s: State): State {
    Select(s, true)
  }

  /** Unlinks a dead thread's first mutex. */
  function Disown(s: State, t: nat): State
    requires s.Own(t) != []
  {
    var m := s.Own(t)[0];
    s.(a := s.a.(own := s.a.own[t := s.Own(t)[1..]], count := s.a.count[m := 0], owner := s.a.owner[m := 0]))
  }

  /** Unlinks a dead thread's mutexes one by one, waking each one's waiters. */
  function UnlockAll(s: State, t: nat): State
    decreases |s.Own(t)|
  {
    if s.Own(t) == [] then s else UnlockAll(Wakeup(Disown(s, t), MutexQ(s.Own(t)[0])), t)
  }

  /** The thread leaves: its slot is freed when it is detached and kept for a joiner otherwise. */
  function Retire(s: State, t: nat): State {
    if At(s.a.detached, t, false)
    then s.(a := s.a.(active := Without(s.a.active, t))).PutSt(t, Dead)
    else s.PutSt(t, Moribund)
  }

  function Exit(s: State, v: int): State {
    var t := s.d.cur;
    var s1 := if At(s.a.detached, t, false) then s else s.(a := s.a.(val := s.a.val[t := v]));
    Select(Wakeup(UnlockAll(Retire(s1, t), t), JoinQ(t)).Hint(), false)
  }

  /** A live thread about to be cancelled leaves whatever queue it is in. */
  ghost function Evict(s: State, t: nat): State {
    match s.St(t)
    case Ready => if 0 < s.Susp(t) then s else UnsetRun(s, t)
    case Running => s.Hint()
    case _ =>
      var s1 := Unpark(s, t).PutQueue(t, NoQ);
      if 0 < s.Susp(t) then s1 else Notify(s1, t, {t})
  }

  ghost function Cancel(s: State, t: nat): State {
    if !s.Live(t) then s else
    Reschedule(Wakeup(UnlockAll(Retire(Evict(s, t), t), t), JoinQ(t)))
  }

  // ----- mutexes

  function Acquire(s: State, m: nat): State {
    var t := s.d.cur;
    s.(a := s.a.(owner := s.a.owner[m := t], count := s.a.count[m := s.Count(m) + 1],
      own := s.a.own[t := s.Own(t) + [m]]))
  }

  function Lock(s: State, m: nat): State {
    var t := s.d.cur;
    if s.Owner(m) == 0 then Acquire(s, m)
    else if s.Owner(m) == t then s.PutCount(m, s.Count(m) + 1)
    else if s.Prio(t) < 0 then s.Fault()
    else Sleep(Promote(s.PutMutex(t, m), s.Owner(m), s.Prio(t)), MutexQ(m))
  }

  function TryLock(s: State, m: nat): (State, bool) {
    if s.Owner(m) == 0 then (Acquire(s, m), true)
    else if s.Owner(m) == s.d.cur then (s.PutCount(m, s.Count(m) + 1), true)
    else (s, false)
  }

  /** The last unlock: the mutex has no owner and the thread gives back what priority it held for its sake. */
  function Release(s: State, m: nat): State {
    var t := s.d.cur;
    var s1 := s.(a := s.a.(own := s.a.own[t := Without(s.Own(t), m)], owner := s.a.owner[m := 0],
      count := s.a.count[m := 0]));
    if s1.Prio(t) < s1.Base(t) then s1.PutPrio(t, Effective(s1, t)) else s1
  }

  function Unlock(s: State, m: nat): State {
    if s.Owner(m) != s.d.cur then s
    else if s.Count(m) - 1 != 0 then s.PutCount(m, s.Count(m) - 1)
    else Wakeup(Release(s, m), MutexQ(m))
  }

  /** A thread back from a mutex queue forgets the mutex it waited for and tries again. */
  function Retry(s: State): State {
    Lock(s.PutMutex(s.d.cur, 0), s.Mutex(s.d.cur))
  }

  function ToInt32(v: int): int {
    if v < 0x8000_0000 then v else v - 0x1_0000_0000
  }

  /** The lock count that `t` saved, put back. */
  function Restore(s: State, t: nat, m: nat): State {
    s.(a := s.a.(count := s.a.count[m := ToInt32(At(s.a.val, t, 0))], val := s.a.val[t := VAL_UNSET]))
  }

  /** One pass of `ProcessPendingLocks`: the retry and, when it took the mutex for the first time, the restoring of the
      count saved by a condition wait. A thread's `val` field holds that count, but also starts out as 0xFFFFFFFF. */
  function PendingLock(s: State): State {
    var t, m, s1 := s.d.cur, s.Mutex(s.d.cur), Retry(s);
    if At(s.a.val, t, 0) > 0 && s1.Owner(m) == t && s1.Count(m) == 1 then Restore(s1, t, m) else s1
  }

  // ----- message queues

  function PutMq(s: State, k: nat, u: MsgQueue): State {
    s.(a := s.a.(mq := s.a.mq[k := u]))
  }

  function InitQueue(s: State, k: nat, n: int): State {
    PutMq(s, k, MsgQueue(n, 0, 0, seq(16, _ => 0))).PutQ(SendQ(k), []).PutQ(RecvQ(k), [])
  }

  /** C remainder. */
  function Rem(a: int, b: int): int
    requires b != 0
  {
    if a >= 0 then a % b else -((-a) % b)
  }

  function Put(slot: seq<int>, i: int, x: int): seq<int> {
    if 0 <= i < |slot| then slot[i := x] else slot
  }

  /** A queue after a message was stored at the back. */
  function Append(u: MsgQueue, msg: int): MsgQueue
    requires u.count != 0
  {
    u.(slot := Put(u.slot, Rem(u.first + u.used, u.count), msg), used := u.used + 1)
  }

  /** A queue after a message was stored in front of the first one. */
  function Prepend(u: MsgQueue, msg: int): MsgQueue
    requires u.count != 0
  {
    var f := Rem(u.first + u.count - 1, u.count);
    u.(slot := Put(u.slot, f, msg), first := f, used := u.used + 1)
  }

  /** A queue after its first message was taken. */
  function Drop(u: MsgQueue): MsgQueue
    requires u.count != 0
  {
    u.(first := Rem(u.first + 1, u.count), used := u.used - 1)
  }

  /** Sends to the back, or to the front when `front`; false when the message was not taken. */
  function Send(s: State, k: nat, msg: int, block: bool, front: bool): (State, bool) {
    var u := s.Mq(k);
    if u.count <= u.used then (if block then Sleep(s, SendQ(k)) else s, false)
    else if u.count == 0 then (s.Fault(), false)
    else (Wakeup(PutMq(s, k, if front then Prepend(u, msg) else Append(u, msg)), RecvQ(k)), true)
  }

  function Message(u: MsgQueue): int {
    if 0 <= u.first < |u.slot| then u.slot[u.first] else 0
  }

  /** Takes the first message; the third result is false when there was none. */
  function Receive(s: State, k: nat, block: bool): (State, int, bool) {
    var u := s.Mq(k);
    if u.used == 0 then (if block then Sleep(s, RecvQ(k)) else s, 0, false)
    else if u.count == 0 then (s.Fault(), 0, false)
    else (Wakeup(PutMq(s, k, Drop(u)), SendQ(k)), Message(u), true)
  }
}
