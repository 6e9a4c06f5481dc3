/** What holds of the scheduler between calls, and how the queue primitives keep it. */
module SchedInv {
  import opened Lists
  import opened Sched

  /** A runnable or waiting thread stands in a queue, unless it is one of the threads `X` in transit. */
  ghost predicate Placed(s: State, X: set<nat>, t: nat) {
    t !in X && (s.St(t) == Waiting || s.Runnable(t))
  }

  /** `t` stands in queue `k` exactly when it is placed and its queue field says so. */
  ghost predicate Located(s: State, X: set<nat>, k: Qid, t: nat) {
    t in s.Q(k) <==> Placed(s, X, t) && s.Queue(t) == k
  }

  ghost predicate QueueOk(s: State, k: Qid) {
    && NoDup(s.Q(k))
    && (!k.RunQ? ==> Sorted(s.Q(k), s.a.prio))
    && (k.RunQ? && 0 <= k.p < 32 ==> (31 - k.p in s.d.bits <==> s.Q(k) != []))
  }

  ghost predicate ThreadOk(s: State, X: set<nat>, t: nat) {
    && (t == 0 ==> s.St(t) == Dead)
    && s.Susp(t) >= 0
    && (s.Live(t) ==> 0 <= s.Base(t) < 32 && 0 <= s.Prio(t) <= 32 && t in s.a.prio)
    && (s.Live(t) && s.Susp(t) == 0 ==> s.Prio(t) < 32)
    && (s.St(t) == Waiting && s.Susp(t) > 0 ==> s.Prio(t) == 32)
    && (s.St(t) == Running ==> t == s.d.cur && s.Susp(t) == 0)
    && (Placed(s, X, t) && s.St(t) == Ready ==> s.Queue(t) == RunQ(s.Prio(t)))
    && (Placed(s, X, t) && s.St(t) == Waiting ==> ParkedOk(s, t))
  }

  /** A waiter names a wait queue; it is a mutex queue iff the thread's mutex field is set, and then it is that
      one's. */
  ghost predicate ParkedOk(s: State, t: nat) {
    var k := s.Queue(t);
    && k != NoQ && !k.RunQ?
    && (s.Mutex(t) != 0 <==> k.MutexQ?)
    && (k.MutexQ? ==> k.m == s.Mutex(t) && s.Owner(k.m) != t)
  }

  ghost predicate MutexOk(s: State, X: set<nat>, m: nat) {
    if s.Owner(m) == 0 then s.Count(m) == 0
    else s.Live(s.Owner(m)) || s.Owner(m) in X
  }

  /** Mutex `m` is on the list of thread `t` just when `t` owns it. */
  ghost predicate Owns(own: map<nat, seq<nat>>, owner: map<nat, nat>, t: nat, m: nat) {
    m in At(own, t, []) <==> m != 0 && t != 0 && At(owner, m, 0) == t
  }

  /** Mutexes agree with their owners' lists. */
  ghost predicate OwnersOk(own: map<nat, seq<nat>>, owner: map<nat, nat>) {
    && (forall t: nat, m: nat {:trigger m in At(own, t, [])} {:trigger Owns(own, owner, t, m)} ::
       Owns(own, owner, t, m))
    && (forall t: nat :: NoDup(At(own, t, [])))
    && At(owner, 0, 0) == 0
  }

  ghost predicate WF(s: State, X: set<nat>) {
    && !s.d.fault
    && (forall k, t :: Located(s, X, k, t))
    && (forall k :: QueueOk(s, k))
    && (forall b :: b in s.d.bits ==> b < 32)
    && (forall t :: ThreadOk(s, X, t))
    && (forall m :: MutexOk(s, X, m))
    && OwnersOk(s.a.own, s.a.owner)
  }

  /** The owner of the mutex `w` is parked on, 0 when it is parked on none. */
  function Blocker(s: State, w: nat): nat {
    if s.St(w) == Waiting && s.Queue(w).MutexQ? then s.Owner(s.Queue(w).m) else 0
  }

  /** `e` is the minimum of `u`'s base priority and the priorities of the threads `u` blocks. */
  ghost predicate IsEff(s: State, u: nat, e: int) {
    && e <= s.Base(u)
    && (forall w :: Blocker(s, w) == u ==> e <= s.Prio(w))
    && (e == s.Base(u) || exists w :: Blocker(s, w) == u && s.Prio(w) == e)
  }

  /** Priority inheritance at one thread. */
  ghost predicate Inherits(s: State, t: nat) {
    s.Live(t) && s.Susp(t) == 0 ==> IsEff(s, t, s.Prio(t))
  }

  // ----- effective priority

  lemma {:induction false} LeastBounds(q: map<Qid, seq<nat>>, prio: map<nat, int>, ms: seq<nat>, b: int)
    ensures var e := Least(q, prio, ms, b);
      && e <= b
      && (forall m :: m in ms && At(q, MutexQ(m), []) != [] ==> e <= At(prio, At(q, MutexQ(m), [])[0], 0))
      && (e == b || exists m :: m in ms && At(q, MutexQ(m), []) != [] && At(prio, At(q, MutexQ(m), [])[0], 0) == e)
  {
    if ms != [] {
      var n := |ms| - 1;
      LeastBounds(q, prio, ms[..n], b);
      assert ms == ms[..n] + [ms[n]];
      var e, r := Least(q, prio, ms, b), Least(q, prio, ms[..n], b);
      if e == r && r != b {
        var m :| m in ms[..n] && At(q, MutexQ(m), []) != [] && At(prio, At(q, MutexQ(m), [])[0], 0) == r;
        assert m in ms;
      } else if e != r {
        assert ms[n] in ms;
      }
    }
  }

  /** What the scan of owned mutexes computes is the minimum over all the threads blocked by `u`,
      because each queue is sorted and its head is its most urgent thread. */
  lemma EffectiveIsMin(s: State, u: nat, X: set<nat>)
    requires WF(s, X) && u != 0
    requires forall w :: w in X ==> Blocker(s, w) != u
    ensures IsEff(s, u, Effective(s, u))
  {
    var e := Effective(s, u);
    LeastBounds(s.d.q, s.a.prio, s.Own(u), s.Base(u));
    forall w | Blocker(s, w) == u ensures e <= s.Prio(w) {
      var k := s.Queue(w);
      assert ThreadOk(s, X, w) && Located(s, X, k, w) && QueueOk(s, k);
      assert k.m in s.Own(u);
      var i :| 0 <= i < |s.Q(k)| && s.Q(k)[i] == w;
    }
    if e != s.Base(u) {
      var m :| m in s.Own(u) && s.Q(MutexQ(m)) != [] && s.Prio(s.Q(MutexQ(m))[0]) == e;
      var w := s.Q(MutexQ(m))[0];
      assert ThreadOk(s, X, w) && Located(s, X, MutexQ(m), w) && w in s.Q(MutexQ(m));
      assert Blocker(s, w) == u;
    }
  }

  lemma EffUnique(s: State, u: nat, e: int, f: int)
    requires IsEff(s, u, e) && IsEff(s, u, f)
    ensures e == f
  {
  }

  // ----- queue primitives

  ghost predicate SameThread(s: State, s': State, u: nat) {
    && s'.St(u) == s.St(u) && s'.Susp(u) == s.Susp(u) && s'.Prio(u) == s.Prio(u) && (u in s'.a.prio <==> u in s.a.prio)
    && s'.Queue(u) == s.Queue(u) && s'.Mutex(u) == s.Mutex(u)
  }

  lemma AdjustLocated(s: State, s': State, t: nat, X: set<nat>, k: Qid, u: nat)
    requires Located(s, X, k, u) && t in X && s'.d.q == s.d.q && (u != t ==> SameThread(s, s', u))
    ensures Located(s', X, k, u)
  {
  }

  lemma AdjustQueue(s: State, s': State, t: nat, X: set<nat>, k: Qid)
    requires QueueOk(s, k) && Located(s, X, k, t) && t in X && s'.d.q == s.d.q && s'.d.bits == s.d.bits
    requires forall u :: u != t ==> SameThread(s, s', u)
    ensures QueueOk(s', k)
  {
    if !k.RunQ? {
      forall u | u in s.Q(k) ensures s'.Prio(u) == s.Prio(u) { assert SameThread(s, s', u); }
      SortedFrame(s.Q(k), s.a.prio, s'.a.prio);
    }
  }

  lemma AdjustThread(s: State, s': State, X: set<nat>, u: nat)
    requires ThreadOk(s, X, u) && SameThread(s, s', u) && s'.a.base == s.a.base && s'.a.owner == s.a.owner
    requires s'.d.cur == s.d.cur || s.St(u) != Running
    ensures ThreadOk(s', X, u)
  {
  }

  lemma AdjustMutex(s: State, s': State, t: nat, X: set<nat>, m: nat)
    requires MutexOk(s, X, m) && t in X && s'.a.owner == s.a.owner && s'.a.count == s.a.count
    requires s.Owner(m) != t ==> SameThread(s, s', s.Owner(m))
    ensures MutexOk(s', X, m)
  {
  }

  /** Fields of a thread in transit may change freely, as long as the thread itself stays sound. */
  lemma AdjustWF(s: State, s': State, t: nat, X: set<nat>)
    requires WF(s, X) && t in X
    requires s'.a == s.a.(susp := s'.a.susp, prio := s'.a.prio, val := s'.a.val, mutex := s'.a.mutex)
    requires s'.d == s.d.(st := s'.d.st, queue := s'.d.queue, cur := s'.d.cur, hint := s'.d.hint)
    requires forall u :: u != t ==> SameThread(s, s', u)
    requires s'.d.cur == s.d.cur || forall u :: s.St(u) == Running ==> u == t
    requires ThreadOk(s', X, t)
    ensures WF(s', X)
  {
    hide Located, QueueOk, ThreadOk, MutexOk, SameThread, OwnersOk;
    forall k, u ensures Located(s', X, k, u) { AdjustLocated(s, s', t, X, k, u); }
    forall k ensures QueueOk(s', k) { AdjustQueue(s, s', t, X, k); }
    forall u ensures ThreadOk(s', X, u) { if u != t { AdjustThread(s, s', X, u); } }
    forall m ensures MutexOk(s', X, m) { AdjustMutex(s, s', t, X, m); }
  }

  lemma UnparkWF(s: State, t: nat, X: set<nat>)
    requires WF(s, X) && s.St(t) == Waiting && t !in X
    ensures WF(Unpark(s, t), X + {t})
  {
    var k, s' := s.Queue(t), Unpark(s, t);
    assert ThreadOk(s, X, t) && QueueOk(s, k);
    WithoutMembers(s.Q(k), t);
    SortedWithout(s.Q(k), t, s.a.prio);
    forall j, u ensures Located(s', X + {t}, j, u) { assert Located(s, X, j, u); }
    forall j ensures QueueOk(s', j) { assert QueueOk(s, j); }
    forall u ensures ThreadOk(s', X + {t}, u) { assert ThreadOk(s, X, u); }
    forall m ensures MutexOk(s', X + {t}, m) { assert MutexOk(s, X, m); }
  }

  lemma UnsetRunWF(s: State, t: nat, X: set<nat>)
    requires WF(s, X) && s.Runnable(t) && t !in X
    ensures WF(UnsetRun(s, t), X + {t})
  {
    var k, s' := s.Queue(t), UnsetRun(s, t);
    assert ThreadOk(s, X, t) && QueueOk(s, k) && Located(s, X, k, t);
    WithoutMembers(s.Q(k), t);
    forall j, u ensures Located(s', X + {t}, j, u) { assert Located(s, X, j, u); }
    forall j ensures QueueOk(s', j) { assert QueueOk(s, j); }
    forall u ensures ThreadOk(s', X + {t}, u) { assert ThreadOk(s, X, u); }
    forall m ensures MutexOk(s', X + {t}, m) { assert MutexOk(s, X, m); }
  }

  /** A runnable thread in transit goes to the run queue of its priority. */
  lemma SetRunWF(s: State, t: nat, X: set<nat>)
    requires WF(s, X) && t in X && s.Runnable(t)
    ensures WF(SetRun(s, t), X - {t})
  {
    var k, s' := RunQ(s.Prio(t)), SetRun(s, t);
    assert ThreadOk(s, X, t) && Located(s, X, k, t);
    forall j, u ensures Located(s', X - {t}, j, u) { assert Located(s, X, j, u); }
    forall j ensures QueueOk(s', j) { assert QueueOk(s, j); }
    forall u ensures ThreadOk(s', X - {t}, u) { assert ThreadOk(s, X, u); }
    forall m ensures MutexOk(s', X - {t}, m) { assert MutexOk(s, X, m); }
  }

  /** A waiter in transit goes, by priority, into the queue it names. */
  lemma ParkWF(s: State, t: nat, X: set<nat>)
    requires WF(s, X) && t in X && s.St(t) == Waiting && ParkedOk(s, t)
    ensures WF(Park(s, t), X - {t})
  {
    var k := s.Queue(t);
    var r := Insert(s.Q(k), t, s.a.prio);
    assert NoDup(r) && Sorted(r, s.a.prio) && forall u :: u in r <==> u in s.Q(k) || u == t by {
      assert Located(s, X, k, t) && QueueOk(s, k);
      InsertMembers(s.Q(k), t, s.a.prio);
      InsertSorted(s.Q(k), t, s.a.prio);
    }
    ParkAs(s, t, r, X);
  }

  lemma ParkAs(s: State, t: nat, r: seq<nat>, X: set<nat>)
    requires WF(s, X) && t in X && s.St(t) == Waiting && ParkedOk(s, t)
    requires NoDup(r) && Sorted(r, s.a.prio)
    requires forall u :: u in r <==> u in s.Q(s.Queue(t)) || u == t
    ensures WF(s.PutQ(s.Queue(t), r), X - {t})
  {
    var s' := s.PutQ(s.Queue(t), r);
    forall j, u ensures Located(s', X - {t}, j, u) { assert Located(s, X, j, u); }
    forall j ensures QueueOk(s', j) { assert QueueOk(s, j); }
    forall u ensures ThreadOk(s', X - {t}, u) { assert ThreadOk(s, X, u); }
    forall m ensures MutexOk(s', X - {t}, m) { assert MutexOk(s, X, m); }
  }
}
