/** Which bytes the hardware is told to move: the addresses and lengths of the transfers of a completed request, field
    by field. */
module ArqFields {
  import opened Arq
  import opened ArqRuns
  import opened ArqProgress

  /** Transfer `d` is piece number `i` of what the caller asked for: `source` and `dest` advance together, and the
      direction says which of the two is in main memory. */
  ghost predicate Piece(d: Dma, toAram: bool, source: int, dest: int, i: int) {
    && d.toAram == toAram
    && (toAram ==> d.mainmem == (source + 4096 * i) % 0x1_0000_0000 && d.aram == (dest + 4096 * i) % 0x1_0000_0000)
    && (!toAram ==> d.aram == (source + 4096 * i) % 0x1_0000_0000 && d.mainmem == (dest + 4096 * i) % 0x1_0000_0000)
  }

  function Sum(t: seq<Dma>): int {
    if t == [] then 0 else t[0].length + Sum(t[1..])
  }

  /** `t` moves `length` bytes in pieces of 4096, the last one with the remainder. */
  ghost predicate Pieces(t: seq<Dma>, toAram: bool, source: int, dest: int, length: int) {
    && t != [] && Sum(t) == length
    && (forall i :: 0 <= i < |t| ==> Piece(t[i], toAram, source, dest, i))
    && (forall i :: 0 <= i < |t| - 1 ==> t[i].length == 4096)
    && 0 <= t[|t| - 1].length <= 4096 && (|t| > 1 ==> t[|t| - 1].length > 0)
  }

  /** `t` moves `length` bytes at once. */
  ghost predicate Whole(t: seq<Dma>, toAram: bool, source: int, dest: int, length: int) {
    |t| == 1 && t[0].length == length && Piece(t[0], toAram, source, dest, 0)
  }

  // ----- the entries of the log with one number

  lemma {:induction false} SentCounts(log: seq<Dma>, id: nat, d: Dma)
    ensures multiset(Sent(log, id))[d] == if d.id == id then multiset(log)[d] else 0
  {
    if log != [] {
      var n := |log| - 1;
      SentCounts(log[..n], id, d);
      assert log == log[..n] + [log[n]];
      SentAppend(log[..n], log[n], id);
    }
  }

  // ----- pieces

  lemma StartMoves(r: Request, length: int)
    requires IsWord(r.source) && IsWord(r.dest)
    ensures Piece(Start(r, length), r.toAram, r.source, r.dest, 0) && Start(r, length).length == length
    ensures Start(r, length).id == r.id
  {
  }

  lemma LaterPiece(d: Dma, r: Request, i: nat)
    requires Piece(d, r.toAram, Chunked(r).source, Chunked(r).dest, i)
    ensures Piece(d, r.toAram, r.source, r.dest, i + 1)
  {
    ModStep(r.source, i);
    ModStep(r.dest, i);
  }

  lemma LeftOver(r: Request)
    requires CHUNK < r.length && IsWord(r.length)
    ensures Chunked(r).length == r.length - 4096 && IsWord(Chunked(r).length) && Chunked(r).length > 0
    ensures IsWord(Chunked(r).source) && IsWord(Chunked(r).dest) && Chunked(r).toAram == r.toAram
  {
  }

  lemma PiecesCons(d: Dma, t: seq<Dma>, r: Request)
    requires Pieces(t, r.toAram, Chunked(r).source, Chunked(r).dest, r.length - 4096) && r.length > 4096
    requires d.length == 4096 && Piece(d, r.toAram, r.source, r.dest, 0)
    ensures Pieces([d] + t, r.toAram, r.source, r.dest, r.length)
  {
    var u := [d] + t;
    assert u[1..] == t;
    forall i | 0 <= i < |u| ensures Piece(u[i], r.toAram, r.source, r.dest, i) {
      if i > 0 { LaterPiece(t[i - 1], r, i - 1); }
    }
    if |t| == 1 { assert t == [t[0]] && Sum(t) == t[0].length + Sum([]); }
  }

  lemma {:induction false} LowMoves(r: Request)
    requires IsWord(r.length) && IsWord(r.source) && IsWord(r.dest)
    ensures Pieces(LowTransfers(r), r.toAram, r.source, r.dest, r.length)
    decreases r.length
  {
    if r.length <= CHUNK {
      StartMoves(r, r.length);
      assert Sum([Start(r, r.length)]) == r.length + Sum([]);
    } else {
      LeftOver(r);
      LowMoves(Chunked(r));
      StartMoves(r, CHUNK);
      PiecesCons(Start(r, CHUNK), LowTransfers(Chunked(r)), r);
    }
  }

  // ----- completed requests

  /** What the log shows of a completed request. */
  ghost predicate Moved(log: seq<Dma>, id: nat, p: Priority, r: Request) {
    && (p == High ==> Whole(Sent(log, id), r.toAram, r.source, r.dest, r.length))
    && (p == Low ==> Pieces(Sent(log, id), r.toAram, r.source, r.dest, r.length))
  }

  /** The transfers of a completed request move exactly the bytes that were asked for: a high one in one piece, a low
      one in pieces of 4096, each from where the one before it stopped, in the direction asked for. */
  lemma DoneIsMoved(h: History, k: nat)
    requires Good(h) && k < |h.q.done|
    ensures var id := h.q.done[k]; id < |h.posted| && Moved(h.q.log, id, h.posted[id].p, h.posted[id].r)
  {
    var id := h.q.done[k];
    var x := h.posted[id];
    if x.p != Other {
      DoneIsCovered(h, k);
      if x.p == High { StartMoves(x.r, x.r.length); } else { LowMoves(x.r); }
    }
  }

  // ----- runs

  /** The requests that a run posts, with their priorities. */
  function Posts(es: seq<Event>): seq<Posted> {
    if es == [] then [] else (if es[0].PostEvent? then [Posted(es[0].r, es[0].p)] else []) + Posts(es[1..])
  }

  lemma {:induction false} RunPosts(h: History, es: seq<Event>)
    ensures Run(h, es).posted == h.posted + Posts(es)
    decreases |es|
  {
    if es != [] { RunPosts(Step(h, es[0]), es[1..]); }
  }

  lemma {:induction false} InIds(posted: seq<Posted>, p: Priority, id: nat)
    requires id < |posted| && posted[id].p == p
    ensures id in IdsOf(posted, p)
    decreases |posted|
  {
    var n := |posted| - 1;
    if id < n { InIds(posted[..n], p, id); }
  }

  lemma {:induction false} InDone(done: seq<nat>, posted: seq<Posted>, p: Priority, id: nat)
    requires id in DoneOf(done, posted, p)
    ensures id in done
    decreases |done|
  {
    var n := |done| - 1;
    if done[n] != id { InDone(done[..n], posted, p, id); }
  }

  /** Whenever a run from an empty queue has become idle, every request that it posted with one of the two priorities
      has had exactly its bytes moved. */
  lemma IdleMeansMoved(es: seq<Event>, id: nat)
    requires Allowed(START, es) && Run(START, es).q.Idle() && id < |Posts(es)|
    ensures Moved(Run(START, es).q.log, id, Posts(es)[id].p, Posts(es)[id].r)
  {
    var h := Run(START, es);
    hide *;
    StartGood();
    RunGood(START, es);
    RunPosts(START, es);
    NothingPosted(Posts(es));
    IdleMeansDone(es, 0);
    IdleMoved(h, id);
  }

  lemma NothingPosted(posted: seq<Posted>)
    ensures START.posted + posted == posted
  {
  }

  lemma IdleMoved(h: History, id: nat)
    requires Good(h) && id < |h.posted|
    requires DoneOf(h.q.done, h.posted, High) == IdsOf(h.posted, High)
    requires DoneOf(h.q.done, h.posted, Low) == IdsOf(h.posted, Low)
    ensures Moved(h.q.log, id, h.posted[id].p, h.posted[id].r)
  {
    var p := h.posted[id].p;
    hide Good, DoneOf, IdsOf, Sent, Whole, Pieces;
    if p != Other {
      InIds(h.posted, p, id);
      InDone(h.q.done, h.posted, p, id);
      var k :| 0 <= k < |h.q.done| && h.q.done[k] == id;
      DoneIsMoved(h, k);
    }
  }

  /** With `k` high requests ahead of it, the transfer that starts as the (k+1)-st is the high request's own, whole. */
  lemma HighMovesWhole(h: History, es: seq<Event>, k: nat)
    requires Good(h) && Allowed(h, es) && k < |h.q.hi| && Interrupts(es) > k
    ensures var r, log, n := h.q.hi[k], Run(h, es).q.log, |h.q.log| + k;
      n < |log| && log[n].id == r.id && Whole([log[n]], r.toAram, r.source, r.dest, r.length)
  {
    var r := h.q.hi[k];
    HighStarts(h, es, k);
    assert h.posted[r.id] == Posted(r, High);
    StartMoves(r, r.length);
  }
}
