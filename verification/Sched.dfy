/** The thread scheduler's state and what each call does to it.
    Thread, mutex and queue fields are maps from addresses; a field never written reads as zero. */
module Sched {
  import opened Lists
  import B = ReadyBits

  datatype ThreadState = Dead | Ready | Running | Waiting | Moribund

  /** The queues a thread's `queue` field can name. */
  datatype Qid =
    | NoQ
    | RunQ(p: int)
    | WaitQ(i: nat)
    | JoinQ(t: nat)
    | MutexQ(m: nat)
    | SendQ(k: nat)
    | RecvQ(k: nat)

  predicate IsLive(x: ThreadState) { x.Ready? || x.Running? || x.Waiting? }

  datatype MsgQueue = MsgQueue(count: int, first: int, used: int, slot: seq<int>)

  /** What is recorded of threads, mutexes and message queues. */
  datatype Attrs = Attrs(
    susp: map<nat, int>,
    prio: map<nat, int>,
    base: map<nat, int>,
    detached: map<nat, bool>,
    val: map<nat, int>,
    mutex: map<nat, nat>,
    owner: map<nat, nat>,
    count: map<nat, int>,
    own: map<nat, seq<nat>>,
    mq: map<nat, MsgQueue>,
    active: seq<nat>,
    resched: int)

  /** Who runs, who is ready, who waits and where. */
  datatype Dispatcher = Dispatcher(
    st: map<nat, ThreadState>,
    queue: map<nat, Qid>,
    q: map<Qid, seq<nat>>,
    cur: nat,
    bits: set<nat>,
    hint: bool,
    fault: bool)

  datatype State = State(a: Attrs, d: Dispatcher)
  {
    function St(t: nat): ThreadState { At(d.st, t, Dead) }
    function Queue(t: nat): Qid { At(d.queue, t, NoQ) }
    function Q(k: Qid): seq<nat> { At(d.q, k, []) }
    function Susp(t: nat): int { At(a.susp, t, 0) }
    function Prio(t: nat): int { At(a.prio, t, 0) }
    function Base(t: nat): int { At(a.base, t, 0) }
    function Mutex(t: nat): nat { At(a.mutex, t, 0) }
    function Owner(m: nat): nat { At(a.owner, m, 0) }
    function Count(m: nat): int { At(a.count, m, 0) }
    function Own(t: nat): seq<nat> { At(a.own, t, []) }
    function Mq(k: nat): MsgQueue { At(a.mq, k, MsgQueue(0, 0, 0, [])) }

    /** One field of one thread, or one queue, written. */
    function PutSt(t: nat, x: ThreadState): State { this.(d := d.(st := d.st[t := x])) }
    function PutQueue(t: nat, k: Qid): State { this.(d := d.(queue := d.queue[t := k])) }
    function PutQ(k: Qid, l: seq<nat>): State { this.(d := d.(q := d.q[k := l])) }
    function PutPrio(t: nat, p: int): State { this.(a := a.(prio := a.prio[t := p])) }
    function PutSusp(t: nat, c: int): State { this.(a := a.(susp := a.susp[t := c])) }
    function PutMutex(t: nat, m: nat): State { this.(a := a.(mutex := a.mutex[t := m])) }
    function PutCount(m: nat, c: int): State { this.(a := a.(count := a.count[m := c])) }
    function Hint(): State { this.(d := d.(hint := true)) }
    function Fault(): State { this.(d := d.(fault := true)) }
    function PutCur(t: nat): State { this.(d := d.(cur := t)) }

    predicate Live(t: nat) { IsLive(St(t)) }
    predicate Runnable(t: nat) { St(t) == Ready && !(0 < Susp(t)) }
  }

  // ----- effective priority

  /** The least of `b` and the priorities at the heads of the queues of mutexes `ms`. */
  function Least(q: map<Qid, seq<nat>>, prio: map<nat, int>, ms: seq<nat>, b: int): int {
    if ms == [] then b else
    var r := Least(q, prio, ms[..|ms| - 1], b);
    var w := At(q, MutexQ(ms[|ms| - 1]), []);
    if w != [] && At(prio, w[0], 0) < r then At(prio, w[0], 0) else r
  }

  function Effective(s: State, t: nat): int {
    Least(s.d.q, s.a.prio, s.Own(t), s.Base(t))
  }

  // ----- run queues

  function Mark(bits: set<nat>, p: int): set<nat> { if 0 <= p < 32 then B.Mark(bits, p) else bits }
  function Unmark(bits: set<nat>, p: int): set<nat> { if 0 <= p < 32 then B.Unmark(bits, p) else bits }

  /** The ready word after queue `p` shrank to `r`. */
  function Drained(bits: set<nat>, r: seq<nat>, p: int): set<nat> { if r == [] then Unmark(bits, p) else bits }

  function SetRun(s: State, t: nat): State {
    var k := RunQ(s.Prio(t));
    s.(d := s.d.(queue := s.d.queue[t := k], q := s.d.q[k := s.Q(k) + [t]], bits := Mark(s.d.bits, s.Prio(t)),
      hint := true))
  }

  function UnsetRun(s: State, t: nat): State {
    var k := s.Queue(t);
    var r := Without(s.Q(k), t);
    s.(d := s.d.(q := s.d.q[k := r], bits := Drained(s.d.bits, r, s.Prio(t)), queue := s.d.queue[t := NoQ]))
  }

  /** Takes a parked thread out of its queue. */
  function Unpark(s: State, t: nat): State {
    s.PutQ(s.Queue(t), Without(s.Q(s.Queue(t)), t))
  }

  /** Parks a thread, by priority, in the queue its queue field names. */
  function Park(s: State, t: nat): State {
    s.PutQ(s.Queue(t), Insert(s.Q(s.Queue(t)), t, s.a.prio))
  }

  /** A waiter changes priority: out of its queue, then back in at the place of the new priority. */
  function Requeue(s: State, t: nat, p: int): State {
    Park(Unpark(s, t).PutPrio(t, p), t)
  }

  /** A ready thread changes run queue. */
  function Rerun(s: State, t: nat, p: int): State {
    SetRun(UnsetRun(s, t).PutPrio(t, p), t)
  }

  /** Gives `t` priority `p`; the second result is the next thread of the chain, 0 at its end.
      A waiter without a queue makes the code write through address 0: nothing is known after that. */
  function SetEffective(s: State, t: nat, p: int): (State, nat) {
    match s.St(t)
    case Ready => (Rerun(s, t, p), 0)
    case Waiting =>
      if s.Queue(t).NoQ? then (s.Fault(), 0)
      else (Requeue(s, t, p), if s.Mutex(t) != 0 then s.Owner(s.Mutex(t)) else 0)
    case Running => (s.Hint().PutPrio(t, p), 0)
    case _ => (s, 0)
  }

  // ----- promotion

  ghost function Above(prio: map<nat, int>, p: int): set<nat> {
    set t | t in prio && prio[t] > p
  }

  lemma AboveShrinks(prio: map<nat, int>, t: nat, p: int)
    requires t in prio && prio[t] > p
    ensures |Above(prio[t := p], p)| < |Above(prio, p)|
  {
    assert Above(prio[t := p], p) == Above(prio, p) - {t};
  }

  lemma SetEffectivePrio(s: State, t: nat, p: int)
    ensures SetEffective(s, t, p).1 != 0 ==> SetEffective(s, t, p).0.a.prio == s.a.prio[t := p]
  {
  }

  /** Raises `t` and then every thread down its chain of owners to at least urgency `p`.
      Terminates on any wait graph: each step takes one thread out of `Above`. */
  function Promote(s: State, t: nat, p: nat): State
    decreases |Above(s.a.prio, p)|
  {
    if 0 < s.Susp(t) || s.Prio(t) <= p then s else
    var (s', u) := SetEffective(s, t, p);
    if u == 0 then s' else
    SetEffectivePrio(s, t, p);
    AboveShrinks(s.a.prio, t, p);
    Promote(s', u, p)
  }
}
