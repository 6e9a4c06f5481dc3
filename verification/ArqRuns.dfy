/** What holds of the transfer queue after any run of posts and interrupts. */
module ArqRuns {
  import opened Arq

  /** A request as it was posted. */
  datatype Posted = Posted(r: Request, p: Priority)

  /** The queue together with everything ever posted; request number `i` is `posted[i]`. */
  datatype History = History(q: Queue, posted: seq<Posted>)

  function Transfers(x: Posted): seq<Dma>
    requires IsWord(x.r.length)
  {
    if x.p.High? then [Start(x.r, x.r.length)] else LowTransfers(x.r)
  }

  function Sent(log: seq<Dma>, id: nat): seq<Dma> {
    if log == [] then [] else
    Sent(log[..|log| - 1], id) + (if log[|log| - 1].id == id then [log[|log| - 1]] else [])
  }

  lemma SentAppend(log: seq<Dma>, d: Dma, id: nat)
    ensures Sent(log + [d], id) == if d.id == id then Sent(log, id) + [d] else Sent(log, id)
  {
    assert (log + [d])[..|log|] == log;
  }

  /** The numbers of the requests posted with priority `p`, in order. */
  function IdsOf(posted: seq<Posted>, p: Priority): seq<nat> {
    if posted == [] then [] else
    var n := |posted| - 1;
    IdsOf(posted[..n], p) + (if posted[n].p == p then [n] else [])
  }

  /** The completed requests of priority `p`, in order of completion. */
  function DoneOf(done: seq<nat>, posted: seq<Posted>, p: Priority): seq<nat> {
    if done == [] then [] else
    var n := |done| - 1;
    DoneOf(done[..n], posted, p) + (if done[n] < |posted| && posted[done[n]].p == p then [done[n]] else [])
  }

  function Ids(s: seq<Request>): (r: seq<nat>)
    ensures |r| == |s|
  {
    seq(|s|, i requires 0 <= i < |s| => s[i].id)
  }

  function PendingIds(p: Pending): seq<nat> {
    if p.None? then [] else [p.r.id]
  }

  /** `s` holds posted requests of priority `p` in posting order, all after number `from`. */
  ghost predicate Queued(s: seq<Request>, posted: seq<Posted>, p: Priority, from: int) {
    && (forall i :: 0 <= i < |s| ==> from < s[i].id < |posted| && posted[s[i].id] == Posted(s[i], p))
    && (forall i, j :: 0 <= i < j < |s| ==> s[i].id < s[j].id)
  }

  function IdOr(p: Pending): int { if p.None? then -1 else p.r.id }

  ghost predicate Words(posted: seq<Posted>) {
    forall i :: 0 <= i < |posted| ==>
      IsWord(posted[i].r.source) && IsWord(posted[i].r.dest) && IsWord(posted[i].r.length) && posted[i].r.id == i
  }

  ghost predicate Waits(q: Queue, id: nat) {
    (exists i :: 0 <= i < |q.hi| && q.hi[i].id == id) || (exists i :: 0 <= i < |q.lo| && q.lo[i].id == id)
  }

  /** The transfers of request `id` that are still to be started. */
  ghost function Todo(h: History, id: nat): seq<Dma>
    requires id < |h.posted| && IsWord(h.posted[id].r.length)
      && (h.q.pendingLo.Some? ==> IsWord(h.q.pendingLo.r.length))
  {
    if h.q.pendingLo.Some? && h.q.pendingLo.r.id == id then
      if h.q.callbackLo then [] else LowTransfers(h.q.pendingLo.r)
    else if Waits(h.q, id) then Transfers(h.posted[id]) else []
  }

  /** The flags follow the requests under way, and an idle queue is empty. */
  ghost predicate Steady(q: Queue) {
    && (q.callbackHi <==> q.pendingHi.Some?)
    && (q.callbackLo ==> q.pendingLo.Some? && q.pendingHi.None?)
    && (q.Idle() ==> q.hi == [] && q.lo == [])
  }

  /** The requests of priority `p` complete, are under way and wait in posting order, each once. */
  ghost predicate Fifo(posted: seq<Posted>, done: seq<nat>, pending: Pending, s: seq<Request>, p: Priority) {
    && Queued(s, posted, p, IdOr(pending))
    && (pending.Some? ==> pending.r.id < |posted| && posted[pending.r.id].p == p)
    && IdsOf(posted, p) == DoneOf(done, posted, p) + PendingIds(pending) + Ids(s)
  }

  ghost predicate Ordered(h: History) {
    var q, posted := h.q, h.posted;
    && Fifo(posted, q.done, q.pendingHi, q.hi, High) && Fifo(posted, q.done, q.pendingLo, q.lo, Low)
    && (q.pendingHi.Some? ==> posted[q.pendingHi.r.id] == Posted(q.pendingHi.r, High))
    && (forall i :: 0 <= i < |q.done| ==> q.done[i] < |posted|)
  }

  /** What was sent of each request and what is still to be sent make up its transfers. */
  ghost predicate Covered(h: History) {
    && Words(h.posted)
    && (h.q.pendingLo.Some? ==>
       IsWord(h.q.pendingLo.r.length) && IsWord(h.q.pendingLo.r.source) && IsWord(h.q.pendingLo.r.dest))
    && (forall id: nat :: id < |h.posted| && h.posted[id].p != Other ==> CoveredAt(h, id))
    && (forall i :: 0 <= i < |h.q.log| ==> h.q.log[i].id < |h.posted|)
  }

  ghost predicate CoveredAt(h: History, id: nat)
    requires id < |h.posted| && IsWord(h.posted[id].r.length)
      && (h.q.pendingLo.Some? ==> IsWord(h.q.pendingLo.r.length))
  {
    Sent(h.q.log, id) + Todo(h, id) == Transfers(h.posted[id])
  }

  ghost predicate Good(h: History) {
    Steady(h.q) && Ordered(h) && Covered(h)
  }

  // ----- steps

  /** Between completing one request and starting the next. */
  ghost predicate Between(h: History) {
    Ordered(h) && Covered(h) && h.q.pendingHi.None? && !h.q.callbackHi && !h.q.callbackLo
  }

  lemma {:induction false} DoneAppend(done: seq<nat>, id: nat, posted: seq<Posted>, p: Priority)
    requires id < |posted|
    ensures DoneOf(done + [id], posted, p) == DoneOf(done, posted, p) + (if posted[id].p == p then [id] else [])
  {
    assert (done + [id])[..|done|] == done;
  }

  lemma CompleteCases(q: Queue)
    requires Steady(q)
    ensures q.callbackHi ==>
      Complete(q) == q.(done := q.done + [q.pendingHi.r.id], pendingHi := None, callbackHi := false)
    ensures !q.callbackHi && q.callbackLo ==>
      Complete(q) == q.(done := q.done + [q.pendingLo.r.id], pendingLo := None, callbackLo := false)
    ensures !q.callbackHi && !q.callbackLo ==> Complete(q) == q
  {
  }

  lemma FifoDone(posted: seq<Posted>, done: seq<nat>, r: Request, s: seq<Request>, p: Priority)
    requires Fifo(posted, done, Some(r), s, p)
    ensures Fifo(posted, done + [r.id], None, s, p)
  {
    DoneAppend(done, r.id, posted, p);
  }

  lemma FifoOther(posted: seq<Posted>, done: seq<nat>, id: nat, pending: Pending, s: seq<Request>, p: Priority)
    requires Fifo(posted, done, pending, s, p) && id < |posted| && posted[id].p != p
    ensures Fifo(posted, done + [id], pending, s, p)
  {
    DoneAppend(done, id, posted, p);
  }

  lemma FifoPop(posted: seq<Posted>, done: seq<nat>, s: seq<Request>, p: Priority)
    requires Fifo(posted, done, None, s, p) && s != []
    ensures Fifo(posted, done, Some(s[0]), s[1..], p)
  {
    assert Ids(s) == [s[0].id] + Ids(s[1..]);
  }

  /** Only the number of the request under way matters. */
  lemma FifoSame(posted: seq<Posted>, done: seq<nat>, r: Request, r': Request, s: seq<Request>, p: Priority)
    requires Fifo(posted, done, Some(r), s, p) && r'.id == r.id
    ensures Fifo(posted, done, Some(r'), s, p)
  {
  }

  lemma CompleteOrdered(h: History)
    requires Good(h)
    ensures Ordered(h.(q := Complete(h.q)))
  {
    var q := h.q;
    CompleteCases(q);
    hide Fifo;
    if q.callbackHi {
      FifoDone(h.posted, q.done, q.pendingHi.r, q.hi, High);
      FifoOther(h.posted, q.done, q.pendingHi.r.id, q.pendingLo, q.lo, Low);
    } else if q.callbackLo {
      PendingLoPosted(h);
      FifoDone(h.posted, q.done, q.pendingLo.r, q.lo, Low);
      FifoOther(h.posted, q.done, q.pendingLo.r.id, q.pendingHi, q.hi, High);
    }
  }

  lemma PendingLoPosted(h: History)
    requires Ordered(h) && h.q.pendingLo.Some?
    ensures h.q.pendingLo.r.id < |h.posted| && h.posted[h.q.pendingLo.r.id].p == Low
  {
  }

  /** A low request under way waits in no queue. */
  lemma PendingLoWaitsNot(h: History)
    requires Ordered(h) && h.q.pendingLo.Some?
    ensures !Waits(h.q, h.q.pendingLo.r.id)
  {
    var q, id := h.q, h.q.pendingLo.r.id;
    forall i | 0 <= i < |q.hi| ensures q.hi[i].id != id { assert h.posted[q.hi[i].id] == Posted(q.hi[i], High); }
    forall i | 0 <= i < |q.lo| ensures q.lo[i].id != id {}
  }

  lemma CompleteCovered(h: History)
    requires Good(h)
    ensures Covered(h.(q := Complete(h.q)))
  {
    var q, q' := h.q, Complete(h.q);
    var h' := h.(q := q');
    CompleteCases(q);
    hide Complete, Ordered;
    if q.pendingLo.Some? { PendingLoWaitsNot(h); }
    forall id: nat | id < |h.posted| && h.posted[id].p != Other ensures CoveredAt(h', id) {
      assert CoveredAt(h, id);
      assert Waits(q', id) <==> Waits(q, id);
    }
  }

  lemma CompleteGood(h: History)
    requires Good(h)
    ensures Between(h.(q := Complete(h.q)))
  {
    CompleteOrdered(h);
    CompleteCovered(h);
    CompleteCases(h.q);
    hide Ordered, Covered;
  }

  lemma PopHiOrdered(h: History)
    requires Between(h) && h.q.hi != []
    ensures Ordered(h.(q := PopHi(h.q))) && Steady(PopHi(h.q))
  {
    assert h.posted[h.q.hi[0].id] == Posted(h.q.hi[0], High);
    hide Fifo;
    FifoPop(h.posted, h.q.done, h.q.hi, High);
  }

  lemma PopHiCoveredAt(h: History, id: nat)
    requires Between(h) && h.q.hi != [] && id < |h.posted| && h.posted[id].p != Other
    ensures CoveredAt(h.(q := PopHi(h.q)), id)
  {
    var q, q' := h.q, PopHi(h.q);
    var r := h.q.hi[0];
    assert r.id < |h.posted| && h.posted[r.id] == Posted(r, High) && Waits(q, r.id);
    if q.pendingLo.Some? { PendingLoWaitsNot(h); }
    PoppedWaitsNot(h);
    assert q'.log == q.log + [Start(r, r.length)] && q'.hi == q.hi[1..] && q'.lo == q.lo;
    hide Ordered, Fifo, PopHi, Waits, LowTransfers;
    assert CoveredAt(h, id);
    SentAppend(q.log, Start(r, r.length), id);
    WaitsPop(q, q', r, id);
    var h' := h.(q := q');
    if id == r.id {
      assert Todo(h, id) == [Start(r, r.length)] && Todo(h', id) == [];
    } else {
      assert Todo(h', id) == Todo(h, id);
    }
  }

  lemma PopHiCovered(h: History)
    requires Between(h) && h.q.hi != []
    ensures Covered(h.(q := PopHi(h.q)))
  {
    assert h.q.hi[0].id < |h.posted|;
    forall id: nat | id < |h.posted| && h.posted[id].p != Other ensures CoveredAt(h.(q := PopHi(h.q)), id) {
      PopHiCoveredAt(h, id);
    }
  }

  lemma PoppedWaitsNot(h: History)
    requires Ordered(h) && h.q.hi != []
    ensures !Waits(PopHi(h.q), h.q.hi[0].id)
  {
    var q, q' := h.q, PopHi(h.q);
    forall i | 0 <= i < |q'.hi| ensures q'.hi[i].id != q.hi[0].id { assert q'.hi[i] == q.hi[i + 1]; }
    forall i | 0 <= i < |q'.lo| ensures q'.lo[i].id != q.hi[0].id {
      assert h.posted[q.lo[i].id] == Posted(q.lo[i], Low) && h.posted[q.hi[0].id] == Posted(q.hi[0], High);
    }
  }

  lemma WaitsPop(q: Queue, q': Queue, r: Request, id: nat)
    requires q.hi != [] && r == q.hi[0] && q'.hi == q.hi[1..] && q'.lo == q.lo
    ensures Waits(q', id) ==> Waits(q, id)
    ensures id != r.id && Waits(q, id) ==> Waits(q', id)
  {
    if Waits(q', id) && exists i :: 0 <= i < |q'.hi| && q'.hi[i].id == id {
      var i :| 0 <= i < |q'.hi| && q'.hi[i].id == id;
      assert q.hi[i + 1].id == id;
    }
    if id != r.id && exists i :: 0 <= i < |q.hi| && q.hi[i].id == id {
      var i :| 0 <= i < |q.hi| && q.hi[i].id == id;
      assert q'.hi[i - 1].id == id;
    }
  }

  lemma TakeLoGood(h: History)
    requires Between(h)
    ensures Between(h.(q := TakeLo(h.q)))
  {
    var q, q' := h.q, TakeLo(h.q);
    var h' := h.(q := q');
    if q.pendingLo.None? && q.lo != [] {
      var r := q.lo[0];
      assert r.id < |h.posted| && h.posted[r.id] == Posted(r, Low) && Waits(q, r.id);
      assert Ordered(h') by {
        hide Fifo;
        FifoPop(h.posted, q.done, q.lo, Low);
        assert Fifo(h.posted, q.done, Some(r), q.lo[1..], Low);
      }
      forall id: nat | id < |h.posted| && h.posted[id].p != Other ensures CoveredAt(h', id) {
        assert CoveredAt(h, id);
        WaitsTake(q, q', r, id);
      }
    }
  }

  lemma WaitsTake(q: Queue, q': Queue, r: Request, id: nat)
    requires q.lo != [] && r == q.lo[0] && q'.lo == q.lo[1..] && q'.hi == q.hi
    ensures id != r.id ==> (Waits(q', id) <==> Waits(q, id))
  {
    forall i | 0 <= i < |q'.lo| ensures Waits(q, q'.lo[i].id) { assert q.lo[i + 1] == q'.lo[i]; }
    forall i | 0 < i < |q.lo| ensures Waits(q', q.lo[i].id) { assert q'.lo[i - 1] == q.lo[i]; }
  }

  lemma SendLoWords(h: History)
    requires Between(h) && h.q.pendingLo.Some?
    ensures var q := SendLo(h.q);
      && q.pendingLo.Some? && IsWord(q.pendingLo.r.length) && IsWord(q.pendingLo.r.source) && IsWord(q.pendingLo.r.dest)
      && (forall i :: 0 <= i < |q.log| ==> q.log[i].id < |h.posted|) && Words(h.posted)
  {
    PendingLoPosted(h);
    hide Ordered;
  }

  lemma SendLoCovered(h: History)
    requires Between(h) && h.q.pendingLo.Some?
    ensures Covered(h.(q := SendLo(h.q)))
  {
    SendLoWords(h);
    hide Ordered, Between, SendLo, CoveredAt;
    forall id: nat | id < |h.posted| && h.posted[id].p != Other ensures CoveredAt(h.(q := SendLo(h.q)), id) {
      SendLoCoveredAt(h, id);
    }
  }

  lemma SendLoOrdered(h: History)
    requires Between(h) && h.q.pendingLo.Some?
    ensures Ordered(h.(q := SendLo(h.q)))
  {
    hide Fifo;
    FifoSame(h.posted, h.q.done, h.q.pendingLo.r, Chunked(h.q.pendingLo.r), h.q.lo, Low);
  }

  lemma SendLoGood(h: History)
    requires Between(h) && h.q.hi == [] && (h.q.pendingLo.None? ==> h.q.lo == [])
    ensures Good(h.(q := SendLo(h.q)))
  {
    if h.q.pendingLo.Some? {
      SendLoOrdered(h);
      SendLoCovered(h);
    }
    hide Ordered, Covered;
  }

  lemma LowStep(r: Request)
    requires IsWord(r.length)
    ensures LowTransfers(r) ==
      [Start(r, if r.length <= CHUNK then r.length else CHUNK)]
      + (if r.length <= CHUNK then [] else LowTransfers(Chunked(r)))
  {
  }

  lemma Regroup(s: seq<Dma>, d: Dma, t: seq<Dma>)
    ensures s + ([d] + t) == (s + [d]) + t
  {
  }

  lemma SendLoCoveredAt(h: History, id: nat)
    requires Between(h) && h.q.pendingLo.Some? && id < |h.posted| && h.posted[id].p != Other
    ensures IsWord(SendLo(h.q).pendingLo.r.length) && CoveredAt(h.(q := SendLo(h.q)), id)
  {
    var r := h.q.pendingLo.r;
    var d := Start(r, if r.length <= CHUNK then r.length else CHUNK);
    var q' := SendLo(h.q);
    assert CoveredAt(h, id);
    assert Waits(q', id) <==> Waits(h.q, id);
    SentAppend(h.q.log, d, id);
    assert q'.log == h.q.log + [d] && q'.pendingLo == Some(Chunked(r)) && (q'.callbackLo <==> r.length <= CHUNK);
    LowStep(r);
    assert IsWord(q'.pendingLo.r.length);
    hide Ordered, Waits, SendLo, LowTransfers, Start, Sent, Covered;
    var h' := h.(q := q');
    if id == r.id {
      var rest := if r.length <= CHUNK then [] else LowTransfers(Chunked(r));
      assert Todo(h', id) == rest && Todo(h, id) == [d] + rest;
      Regroup(Sent(h.q.log, id), d, rest);
    } else {
      assert Todo(h', id) == Todo(h, id);
    }
  }

  lemma NextGood(h: History)
    requires Between(h)
    ensures Good(h.(q := Next(h.q)))
  {
    var q := h.q;
    if q.hi != [] {
      PopHiOrdered(h);
      PopHiCovered(h);
      assert Next(q) == PopHi(q);
    } else {
      TakeLoGood(h);
      SendLoGood(h.(q := TakeLo(q)));
      assert Next(q) == SendLo(TakeLo(q));
    }
  }

  lemma InterruptGood(h: History)
    requires Good(h)
    ensures Good(h.(q := Interrupt(h.q)))
  {
    CompleteGood(h);
    NextGood(h.(q := Complete(h.q)));
  }

  // ----- posting

  lemma {:induction false} DoneStable(done: seq<nat>, posted: seq<Posted>, x: Posted, p: Priority)
    requires forall i :: 0 <= i < |done| ==> done[i] < |posted|
    ensures DoneOf(done, posted + [x], p) == DoneOf(done, posted, p)
  {
    if done != [] { DoneStable(done[..|done| - 1], posted, x, p); }
  }

  lemma IdsAppend(posted: seq<Posted>, x: Posted, p: Priority)
    ensures IdsOf(posted + [x], p) == if x.p == p then IdsOf(posted, p) + [|posted|] else IdsOf(posted, p)
  {
    assert (posted + [x])[..|posted|] == posted;
  }

  lemma FifoPost(posted: seq<Posted>, done: seq<nat>, pending: Pending, s: seq<Request>, p: Priority, x: Posted)
    requires Fifo(posted, done, pending, s, p) && x.r.id == |posted|
    requires forall i :: 0 <= i < |done| ==> done[i] < |posted|
    ensures Fifo(posted + [x], done, pending, if x.p == p then s + [x.r] else s, p)
  {
    DoneStable(done, posted, x, p);
    IdsAppend(posted, x, p);
    QueuedPost(posted, pending, s, p, x);
    IdsSnoc(DoneOf(done, posted, p), PendingIds(pending), s, x.r);
    hide Queued, Ids, IdsOf, DoneOf, PendingIds;
  }

  lemma IdsSnoc(a: seq<nat>, b: seq<nat>, s: seq<Request>, r: Request)
    ensures a + b + Ids(s + [r]) == a + b + Ids(s) + [r.id]
  {
    assert Ids(s + [r]) == Ids(s) + [r.id];
  }

  lemma QueuedPost(posted: seq<Posted>, pending: Pending, s: seq<Request>, p: Priority, x: Posted)
    requires Queued(s, posted, p, IdOr(pending)) && x.r.id == |posted| && (pending.Some? ==> pending.r.id < |posted|)
    ensures Queued(if x.p == p then s + [x.r] else s, posted + [x], p, IdOr(pending))
  {
  }

  /** A new request, numbered after all others. */
  ghost predicate Fresh(h: History, r: Request) {
    r.id == |h.posted| && IsWord(r.source) && IsWord(r.dest) && IsWord(r.length)
  }

  function PostTo(h: History, r: Request, p: Priority): History {
    History(Post(h.q, r, p), h.posted + [Posted(r, p)])
  }

  lemma EnqueueOrdered(h: History, r: Request, p: Priority)
    requires Ordered(h) && Fresh(h, r)
    ensures Ordered(History(Enqueue(h.q, r, p), h.posted + [Posted(r, p)]))
  {
    var x := Posted(r, p);
    FifoPost(h.posted, h.q.done, h.q.pendingHi, h.q.hi, High, x);
    FifoPost(h.posted, h.q.done, h.q.pendingLo, h.q.lo, Low, x);
    assert h.q.pendingHi.Some? ==> h.q.pendingHi.r.id < |h.posted|;
    hide Fifo;
  }

  lemma {:induction false} SentNone(log: seq<Dma>, id: nat)
    requires forall i :: 0 <= i < |log| ==> log[i].id < id
    ensures Sent(log, id) == []
  {
    if log != [] { SentNone(log[..|log| - 1], id); }
  }

  lemma EnqueueCovered(h: History, r: Request, p: Priority)
    requires Ordered(h) && Covered(h) && Fresh(h, r)
    ensures Covered(History(Enqueue(h.q, r, p), h.posted + [Posted(r, p)]))
  {
    var h' := History(Enqueue(h.q, r, p), h.posted + [Posted(r, p)]);
    assert forall i :: 0 <= i < |h.q.log| ==> h'.q.log[i].id < |h'.posted|;
    forall id: nat | id < |h'.posted| && h'.posted[id].p != Other ensures CoveredAt(h', id) {
      EnqueueCoveredAt(h, r, p, id);
    }
    hide Ordered;
  }

  lemma EnqueueCoveredAt(h: History, r: Request, p: Priority, id: nat)
    requires Ordered(h) && Covered(h) && Fresh(h, r) && id <= |h.posted|
    requires id == |h.posted| ==> p != Other
    requires id < |h.posted| ==> h.posted[id].p != Other
    ensures var h' := History(Enqueue(h.q, r, p), h.posted + [Posted(r, p)]);
      IsWord(h'.posted[id].r.length) && (h'.q.pendingLo.Some? ==> IsWord(h'.q.pendingLo.r.length)) && CoveredAt(h', id)
  {
    EnqueueWaits(h.q, r, p, id);
    if h.q.pendingLo.Some? { PendingLoPosted(h); }
    hide Ordered, Waits;
    if id < |h.posted| {
      assert CoveredAt(h, id);
    } else {
      SentNone(h.q.log, id);
    }
  }

  lemma EnqueueWaits(q: Queue, r: Request, p: Priority, id: nat)
    ensures var q' := Enqueue(q, r, p);
      && (id != r.id ==> (Waits(q', id) <==> Waits(q, id)))
      && (id == r.id && p != Other ==> Waits(q', id))
  {
    var q' := Enqueue(q, r, p);
    forall i | 0 <= i < |q.hi| ensures q'.hi[i] == q.hi[i] {}
    forall i | 0 <= i < |q.lo| ensures q'.lo[i] == q.lo[i] {}
    assert p == High ==> q'.hi[|q.hi|] == r;
    assert p == Low ==> q'.lo[|q.lo|] == r;
  }

  lemma PostGood(h: History, r: Request, p: Priority)
    requires Good(h) && Fresh(h, r)
    ensures Good(PostTo(h, r, p))
  {
    var e := History(Enqueue(h.q, r, p), h.posted + [Posted(r, p)]);
    EnqueueOrdered(h, r, p);
    EnqueueCovered(h, r, p);
    hide Ordered, Covered;
    if e.q.Idle() {
      NextGood(e);
      assert PostTo(h, r, p).q == Next(e.q);
    } else {
      assert PostTo(h, r, p).q == e.q;
    }
  }
}
