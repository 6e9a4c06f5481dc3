/** Runs of the transfer queue: coverage, one transfer at a time, how soon a high request starts, and how long
    draining takes. */
module ArqProgress {
  import opened Arq
  import opened ArqRuns

  datatype Event = PostEvent(r: Request, p: Priority) | InterruptEvent

  const START: History := History(EMPTY, [])

  /** An interrupt comes only from a transfer in flight. */
  predicate Enabled(h: History, e: Event) {
    match e
    case PostEvent(r, p) => r.id == |h.posted| && IsWord(r.source) && IsWord(r.dest) && IsWord(r.length)
    case InterruptEvent => !h.q.Idle()
  }

  function Step(h: History, e: Event): History {
    match e
    case PostEvent(r, p) => PostTo(h, r, p)
    case InterruptEvent => h.(q := Interrupt(h.q))
  }

  predicate Allowed(h: History, es: seq<Event>)
    decreases |es|
  {
    es != [] ==> Enabled(h, es[0]) && Allowed(Step(h, es[0]), es[1..])
  }

  function Run(h: History, es: seq<Event>): History
    decreases |es|
  {
    if es == [] then h else Run(Step(h, es[0]), es[1..])
  }

  function Interrupts(es: seq<Event>): (n: nat)
    decreases |es|
  {
    if es == [] then 0 else (if es[0].InterruptEvent? then 1 else 0) + Interrupts(es[1..])
  }

  lemma StepGood(h: History, e: Event)
    requires Good(h) && Enabled(h, e)
    ensures Good(Step(h, e))
  {
    match e
    case PostEvent(r, p) => PostGood(h, r, p);
    case InterruptEvent => InterruptGood(h);
  }

  lemma {:induction false} RunGood(h: History, es: seq<Event>)
    requires Good(h) && Allowed(h, es)
    ensures Good(Run(h, es))
    decreases |es|
  {
    if es != [] {
      StepGood(h, es[0]);
      RunGood(Step(h, es[0]), es[1..]);
    }
  }

  lemma StartGood()
    ensures Good(START)
  {
  }

  // ----- completed requests

  ghost predicate Increasing(s: seq<nat>, bound: nat) {
    (forall i :: 0 <= i < |s| ==> s[i] < bound) && forall i, j :: 0 <= i < j < |s| ==> s[i] < s[j]
  }

  lemma {:induction false} IdsIncrease(posted: seq<Posted>, p: Priority)
    ensures Increasing(IdsOf(posted, p), |posted|)
    decreases |posted|
  {
    if posted != [] {
      var n := |posted| - 1;
      IdsIncrease(posted[..n], p);
      var r := IdsOf(posted[..n], p);
      if posted[n].p == p {
        assert IdsOf(posted, p) == r + [n];
      } else {
        assert IdsOf(posted, p) == r + [] == r;
      }
    }
  }

  lemma {:induction false} InDoneOf(done: seq<nat>, posted: seq<Posted>, i: nat)
    requires i < |done| && done[i] < |posted|
    ensures done[i] in DoneOf(done, posted, posted[done[i]].p)
    decreases |done|
  {
    if i < |done| - 1 { InDoneOf(done[..|done| - 1], posted, i); }
  }

  lemma Apart(s: seq<nat>, a: seq<nat>, b: seq<nat>, x: nat)
    requires s == a + b && (exists n :: Increasing(s, n)) && x in a
    ensures x !in b
  {
    var i :| 0 <= i < |a| && a[i] == x;
    var n :| Increasing(s, n);
    forall j | 0 <= j < |b| ensures b[j] != x { assert s[i] == x && s[|a| + j] == b[j]; }
  }

  lemma DoneIsPast(posted: seq<Posted>, done: seq<nat>, pending: Pending, s: seq<Request>, p: Priority, id: nat)
    requires Fifo(posted, done, pending, s, p) && id in DoneOf(done, posted, p)
    ensures IdOr(pending) != id && forall i :: 0 <= i < |s| ==> s[i].id != id
  {
    IdsIncrease(posted, p);
    var a, b := DoneOf(done, posted, p), PendingIds(pending) + Ids(s);
    assert a + b == IdsOf(posted, p);
    Apart(IdsOf(posted, p), a, b, id);
    forall i | 0 <= i < |s| ensures s[i].id != id { assert b[|PendingIds(pending)| + i] == s[i].id; }
    assert pending.Some? ==> b[0] == pending.r.id;
  }

  /** When a request completes, the transfers started on its behalf are exactly those that cover its ranges, in
      order. */
  lemma DoneIsCovered(h: History, i: nat)
    requires Good(h) && i < |h.q.done| && h.posted[h.q.done[i]].p != Other
    ensures Sent(h.q.log, h.q.done[i]) == Transfers(h.posted[h.q.done[i]])
  {
    var q, id := h.q, h.q.done[i];
    var p := h.posted[id].p;
    InDoneOf(q.done, h.posted, i);
    if p == High {
      DoneIsPast(h.posted, q.done, q.pendingHi, q.hi, High, id);
    } else {
      DoneIsPast(h.posted, q.done, q.pendingLo, q.lo, Low, id);
    }
    OtherQueue(h, id);
    assert CoveredAt(h, id);
  }

  /** A request waits only in the queue of its priority. */
  lemma OtherQueue(h: History, id: nat)
    requires Ordered(h) && id < |h.posted|
    ensures h.posted[id].p == High ==>
      (forall i :: 0 <= i < |h.q.lo| ==> h.q.lo[i].id != id) && IdOr(h.q.pendingLo) != id
    ensures h.posted[id].p == Low ==> forall i :: 0 <= i < |h.q.hi| ==> h.q.hi[i].id != id
  {
    forall i | 0 <= i < |h.q.lo| ensures h.posted[h.q.lo[i].id].p == Low {}
    forall i | 0 <= i < |h.q.hi| ensures h.posted[h.q.hi[i].id].p == High {}
  }

  /** Whenever the queue is idle, every request of both priorities has completed, once, in posting order, and its
      transfers have covered its ranges. */
  lemma IdleMeansDone(es: seq<Event>, i: nat)
    requires Allowed(START, es) && Run(START, es).q.Idle()
    ensures var h := Run(START, es);
      && DoneOf(h.q.done, h.posted, High) == IdsOf(h.posted, High)
      && DoneOf(h.q.done, h.posted, Low) == IdsOf(h.posted, Low)
      && (i < |h.q.done| && h.q.done[i] < |h.posted| && h.posted[h.q.done[i]].p != Other ==>
          IsWord(h.posted[h.q.done[i]].r.length) && Sent(h.q.log, h.q.done[i]) == Transfers(h.posted[h.q.done[i]]))
  {
    StartGood();
    RunGood(START, es);
    var h := Run(START, es);
    assert PendingIds(None) + Ids([]) == [];
    if i < |h.q.done| && h.posted[h.q.done[i]].p != Other { DoneIsCovered(h, i); }
  }

  // ----- one transfer at a time

  /** Transfers started and transfers completed differ by the one in flight, if there is one. */
  lemma {:induction false} OneInFlight(h: History, es: seq<Event>)
    requires Good(h) && Allowed(h, es)
    ensures var h' := Run(h, es);
      |h'.q.log| - (if h'.q.Idle() then 0 else 1) == |h.q.log| - (if h.q.Idle() then 0 else 1) + Interrupts(es)
    decreases |es|
  {
    if es != [] {
      StepGood(h, es[0]);
      match es[0] {
        case PostEvent(r, p) => PostStarts(h.q, r, p);
        case InterruptEvent => InterruptStarts(h.q);
      }
      OneInFlight(Step(h, es[0]), es[1..]);
    }
  }

  lemma NextStarts(q: Queue)
    requires q.pendingHi.None?
    ensures |Next(q).log| == |q.log| + (if Next(q).Idle() then 0 else 1)
    ensures Next(q).Idle() <==> q.Idle() && q.hi == [] && q.lo == []
  {
    if q.hi != [] { assert Next(q) == PopHi(q); } else { assert Next(q) == SendLo(TakeLo(q)); }
  }

  lemma PostStarts(q: Queue, r: Request, p: Priority)
    requires Steady(q)
    ensures var q' := Post(q, r, p);
      |q'.log| - (if q'.Idle() then 0 else 1) == |q.log| - (if q.Idle() then 0 else 1)
  {
    var e := Enqueue(q, r, p);
    if e.Idle() { NextStarts(e); assert Post(q, r, p) == Next(e); } else { assert Post(q, r, p) == e; }
  }

  lemma InterruptStarts(q: Queue)
    requires Steady(q) && !q.Idle()
    ensures |Interrupt(q).log| == |q.log| + (if Interrupt(q).Idle() then 0 else 1)
  {
    CompleteCases(q);
    NextStarts(Complete(q));
  }

  // ----- how soon a high request starts

  lemma NoEvents(h: History, es: seq<Event>)
    ensures es == [] ==> Interrupts(es) == 0 && Run(h, es) == h
  {
  }

  lemma RunStep(h: History, es: seq<Event>)
    requires es != [] && Allowed(h, es)
    ensures Enabled(h, es[0]) && Allowed(Step(h, es[0]), es[1..]) && Run(h, es) == Run(Step(h, es[0]), es[1..])
    ensures Interrupts(es) == (if es[0].InterruptEvent? then 1 else 0) + Interrupts(es[1..])
  {
  }

  /** With `k` high requests ahead of it, a high request is the (k+1)-st to start, and has started after k+1
      interrupts. */
  lemma {:induction false} HighStarts(h: History, es: seq<Event>, k: nat)
    requires Good(h) && Allowed(h, es) && k < |h.q.hi| && Interrupts(es) > k
    ensures var h' := Run(h, es);
      |h.q.log| + k < |h'.q.log| && h'.q.log[|h.q.log| + k] == Start(h.q.hi[k], h.q.hi[k].length)
    decreases |es|
  {
    NoEvents(h, es);
    hide *;
    var h1 := Step(h, es[0]);
    RunStep(h, es);
    StepGood(h, es[0]);
    HighMoves(h, es[0]);
    if es[0].PostEvent? {
      HighStarts(h1, es[1..], k);
      assert h1.q.hi[..|h.q.hi|][k] == h.q.hi[k];
    } else if k == 0 {
      LogGrows(h1, es[1..]);
    } else {
      HighStarts(h1, es[1..], k - 1);
    }
  }

  /** What one event does to the high requests waiting and to the log. */
  lemma HighMoves(h: History, e: Event)
    requires Good(h) && Enabled(h, e) && h.q.hi != []
    ensures var q, q' := h.q, Step(h, e).q;
      && (e.PostEvent? ==> q'.log == q.log && |q.hi| <= |q'.hi| && q'.hi[..|q.hi|] == q.hi)
      && (e.InterruptEvent? ==> q'.log == q.log + [Start(q.hi[0], q.hi[0].length)] && q'.hi == q.hi[1..])
  {
    match e
    case PostEvent(r, p) => PostBehind(h, r, p);
    case InterruptEvent => InterruptPops(h);
  }

  lemma PostBehind(h: History, r: Request, p: Priority)
    requires Good(h) && h.q.hi != []
    ensures var q' := Post(h.q, r, p); q'.log == h.q.log && |h.q.hi| <= |q'.hi| && q'.hi[..|h.q.hi|] == h.q.hi
  {
    assert Post(h.q, r, p) == Enqueue(h.q, r, p);
  }

  lemma InterruptPops(h: History)
    requires Good(h) && h.q.hi != []
    ensures var q' := Interrupt(h.q);
      q'.log == h.q.log + [Start(h.q.hi[0], h.q.hi[0].length)] && q'.hi == h.q.hi[1..]
  {
    CompleteCases(h.q);
    assert Interrupt(h.q) == PopHi(Complete(h.q));
  }

  lemma StepLog(h: History, e: Event)
    requires Good(h) && Enabled(h, e)
    ensures h.q.log <= Step(h, e).q.log
  {
    match e {
      case PostEvent(r, p) => PostLog(h.q, r, p);
      case InterruptEvent => CompleteLog(h.q); NextLog(Complete(h.q));
    }
  }

  lemma PostLog(q: Queue, r: Request, p: Priority)
    ensures q.log <= Post(q, r, p).log
  {
    var e := Enqueue(q, r, p);
    NextLog(e);
    if e.Idle() { assert Post(q, r, p) == Next(e); } else { assert Post(q, r, p) == e; }
  }

  lemma CompleteLog(q: Queue)
    ensures Complete(q).log == q.log
  {
  }

  lemma NextLog(q: Queue)
    ensures q.log <= Next(q).log
  {
    if PopHi(q).pendingHi.None? { assert Next(q) == SendLo(TakeLo(PopHi(q))); } else { assert Next(q) == PopHi(q); }
  }

  lemma {:induction false} LogGrows(h: History, es: seq<Event>)
    requires Good(h) && Allowed(h, es)
    ensures h.q.log <= Run(h, es).q.log
    decreases |es|
  {
    if es != [] {
      StepLog(h, es[0]);
      StepGood(h, es[0]);
      LogGrows(Step(h, es[0]), es[1..]);
    }
  }

  // ----- draining

  function LowWork(s: seq<Request>): (n: nat)
  {
    if s == [] then 0 else Chunks(s[0].length) + LowWork(s[1..])
  }

  /** The interrupts that it takes to empty the queue: one for the transfer in flight, one for each waiting high
      request, and one for each chunk still to be sent of a low one. */
  function Work(q: Queue): nat {
    (if q.Idle() then 0 else 1) + |q.hi| + LowWork(q.lo) +
    (if q.pendingLo.Some? && !q.callbackLo then Chunks(q.pendingLo.r.length) else 0)
  }

  lemma NextWork(q: Queue)
    requires q.pendingHi.None? && !q.callbackLo && (q.pendingLo.Some? ==> IsWord(q.pendingLo.r.length))
    requires forall i :: 0 <= i < |q.lo| ==> IsWord(q.lo[i].length)
    ensures Work(Next(q)) ==
      Work(q) + (if q.pendingLo.None? && !Next(q).Idle() then 1 else 0) - (if Next(q).Idle() then 0 else 1)
  {
    if q.hi != [] {
      assert Next(q) == PopHi(q);
    } else {
      assert Next(q) == SendLo(TakeLo(q));
      TakeWork(q);
      SendWork(TakeLo(q));
    }
  }

  lemma TakeWork(q: Queue)
    requires !q.callbackLo
    ensures Work(TakeLo(q)) == Work(q) + if q.Idle() && q.lo != [] then 1 else 0
  {
  }

  lemma SendWork(q: Queue)
    requires !q.callbackLo && (q.pendingLo.Some? ==> IsWord(q.pendingLo.r.length))
    ensures Work(SendLo(q)) == Work(q) - if q.pendingLo.Some? then 1 else 0
  {
    if q.pendingLo.Some? && q.pendingLo.r.length > CHUNK { ChunksStep(q.pendingLo.r.length); }
  }

  lemma InterruptWork(h: History)
    requires Good(h) && !h.q.Idle()
    ensures Work(Interrupt(h.q)) == Work(h.q) - 1
  {
    CompleteCases(h.q);
    forall i | 0 <= i < |h.q.lo| ensures IsWord(h.q.lo[i].length) {
      assert h.posted[h.q.lo[i].id] == Posted(h.q.lo[i], Low);
    }
    NextWork(Complete(h.q));
    NextStarts(Complete(h.q));
  }

  lemma IdleHasNoWork(h: History)
    requires Good(h)
    ensures h.q.Idle() <==> Work(h.q) == 0
  {
  }

  function AfterInterrupts(q: Queue, n: nat): Queue
    decreases n
  {
    if n == 0 then q else AfterInterrupts(Interrupt(q), n - 1)
  }

  lemma AfterStep(q: Queue, n: nat)
    ensures AfterInterrupts(q, n) == if n == 0 then q else AfterInterrupts(Interrupt(q), n - 1)
  {
  }

  /** With nothing more posted, the queue becomes idle after exactly `Work` interrupts. */
  lemma {:induction false} Drains(h: History, n: nat)
    requires Good(h) && n <= Work(h.q)
    ensures AfterInterrupts(h.q, n).Idle() <==> n == Work(h.q)
    decreases n
  {
    hide *;
    IdleHasNoWork(h);
    AfterStep(h.q, n);
    if n > 0 {
      InterruptWork(h);
      InterruptGood(h);
      Drains(h.(q := Interrupt(h.q)), n - 1);
    }
  }
}
