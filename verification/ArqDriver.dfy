/** The transfer queue in its own form: request records linked through a field, heads, tails and pending addresses
    updated in place. Each routine is proved to do what the function of the same name in `Arq` says. */
module ArqDriver {
  import opened Lists
  import opened Arq
  import opened ArqRuns

  /** The fields of all request records. */
  datatype Records = Records(next: map<nat, nat>, toAram: map<nat, bool>, source: map<nat, int>, dest: map<nat, int>,
                             length: map<nat, int>)

  /** The record of `r` holds it. */
  ghost predicate Holds(m: Records, r: Request) {
    && r.at != 0 && At(m.toAram, r.at, false) == r.toAram
    && At(m.source, r.at, 0) == r.source && At(m.dest, r.at, 0) == r.dest && At(m.length, r.at, 0) == r.length
  }

  function NextAt(s: seq<Request>, i: int): nat
    requires 0 <= i < |s|
  {
    if i + 1 < |s| then s[i + 1].at else 0
  }

  /** The records of `s` are linked from `head` to `tail`; an empty queue's tail is stale. */
  ghost predicate Line(m: Records, s: seq<Request>, head: nat, tail: nat) {
    && head == (if s == [] then 0 else s[0].at) && (s != [] ==> tail == s[|s| - 1].at)
    && (forall i :: 0 <= i < |s| ==> Holds(m, s[i]))
    && (forall i {:trigger NextAt(s, i)} {:trigger s[i]} :: 0 <= i < |s| ==> At(m.next, s[i].at, 0) == NextAt(s, i))
  }

  ghost predicate Under(m: Records, p: Pending, at: nat) {
    if p.None? then at == 0 else at == p.r.at && Holds(m, p.r)
  }

  /** No record is in two places. */
  ghost predicate Apart(q: Queue) {
    && (forall i, j :: 0 <= i < j < |q.hi| ==> q.hi[i].at != q.hi[j].at)
    && (forall i, j :: 0 <= i < j < |q.lo| ==> q.lo[i].at != q.lo[j].at)
    && (forall i, j :: 0 <= i < |q.hi| && 0 <= j < |q.lo| ==> q.hi[i].at != q.lo[j].at)
    && (q.pendingHi.Some? ==> Unused(q.(pendingHi := None), q.pendingHi.r.at))
    && (q.pendingLo.Some? ==> Unused(q.(pendingLo := None), q.pendingLo.r.at))
  }

  /** The record at `at` belongs to no request that is waiting or under way. */
  ghost predicate Unused(q: Queue, at: nat) {
    && (forall i :: 0 <= i < |q.hi| ==> q.hi[i].at != at)
    && (forall i :: 0 <= i < |q.lo| ==> q.lo[i].at != at)
    && (q.pendingHi.Some? ==> q.pendingHi.r.at != at) && (q.pendingLo.Some? ==> q.pendingLo.r.at != at)
  }

  /** The host-side words of the queue. */
  datatype Words = Words(queueHi: nat, tailHi: nat, queueLo: nat, tailLo: nat, pendingHi: nat, pendingLo: nat,
                         callbackHi: bool, callbackLo: bool, callbacks: int)

  ghost predicate Represents(m: Records, g: Words, q: Queue) {
    && Line(m, q.hi, g.queueHi, g.tailHi) && Line(m, q.lo, g.queueLo, g.tailLo)
    && Under(m, q.pendingHi, g.pendingHi) && Under(m, q.pendingLo, g.pendingLo)
    && Apart(q) && g.callbackHi == q.callbackHi && g.callbackLo == q.callbackLo && g.callbacks == |q.done|
  }

  class Driver {
    // request records
    var next: map<nat, nat>
    var toAram: map<nat, bool>
    var source: map<nat, int>
    var dest: map<nat, int>
    var length: map<nat, int>
    // the queue
    var queueHi: nat
    var tailHi: nat
    var queueLo: nat
    var tailLo: nat
    var pendingHi: nat
    var pendingLo: nat
    var hasCallbackHi: bool
    var hasCallbackLo: bool
    var callbackCount: int
    const chunkSize: int
    ghost var q: Queue

    ghost function Mem(): Records
      reads `next, `toAram, `source, `dest, `length
    {
      Records(next, toAram, source, dest, length)
    }

    ghost function Regs(): Words
      reads `queueHi, `tailHi, `queueLo, `tailLo, `pendingHi, `pendingLo, `hasCallbackHi, `hasCallbackLo, `callbackCount
    {
      Words(queueHi, tailHi, queueLo, tailLo, pendingHi, pendingLo, hasCallbackHi, hasCallbackLo, callbackCount)
    }

    ghost predicate Valid()
      reads this
    {
      Represents(Mem(), Regs(), q) && chunkSize == CHUNK
    }

    constructor ()
      ensures Valid() && q == EMPTY
    {
      next, toAram, source, dest, length := map[], map[], map[], map[], map[];
      queueHi, tailHi, queueLo, tailLo, pendingHi, pendingLo := 0, 0, 0, 0, 0, 0;
      hasCallbackHi, hasCallbackLo, callbackCount, chunkSize := false, false, 0, CHUNK;
      q := EMPTY;
    }

    /** Hands a transfer to the hardware. */
    method StartDMA(ghost id: nat, toA: bool, mainmem: int, aram: int, len: int)
      modifies `q
      ensures q == old(q).(log := old(q).log + [Dma(id, toA, mainmem, aram, len)])
    {
      q := q.(log := q.log + [Dma(id, toA, mainmem, aram, len)]);
    }

    method PopTaskQueueHi()
      requires Valid() && q.pendingHi.None?
      modifies `q, `queueHi, `pendingHi, `hasCallbackHi
      ensures Valid() && q == PopHi(old(q))
    {
      hide Represents, Line, Apart;
      ghost var p := q;
      QueueHeads(Mem(), Regs(), p);
      if queueHi != 0 {
        PopMoves(Mem(), Regs(), p);
        var req := queueHi;
        StartEither(p.hi[0], At(toAram, req, false), At(source, req, 0), At(dest, req, 0), At(length, req, 0));
        hasCallbackHi := true;
        pendingHi := req;
        queueHi := At(next, req, 0);
        q := q.(callbackHi := true, pendingHi := Some(p.hi[0]), hi := p.hi[1..]);
      }
    }

    method ServiceQueueLo()
      requires Valid()
      modifies `q, `queueLo, `pendingLo, `hasCallbackLo, `length, `source, `dest
      ensures Valid() && q == ServiceLo(old(q))
    {
      hide Represents, Line, Apart;
      ghost var p := q;
      QueueHeads(Mem(), Regs(), p);
      if pendingLo == 0 && queueLo != 0 {
        TakeMoves(Mem(), Regs(), p);
        pendingLo := queueLo;
        queueLo := At(next, queueLo, 0);
        q := TakeLo(p);
      }
      SendChunk();
    }

    method SendChunk()
      requires Valid()
      modifies `q, `hasCallbackLo, `length, `source, `dest
      ensures Valid() && q == SendLo(old(q))
    {
      hide Line, Apart;
      QueueHeads(Mem(), Regs(), q);
      if pendingLo != 0 { SendPending(); }
    }

    method SendPending()
      requires Valid() && q.pendingLo.Some?
      modifies `q, `hasCallbackLo, `length, `source, `dest
      ensures Valid() && q == SendLo(old(q))
    {
      hide Represents, Line, Apart, SendLo, Start, Chunked, Advanced;
      ghost var p, r := q, q.pendingLo.r;
      SendCases(p);
      SendMoves(Mem(), Regs(), p);
      var req := pendingLo;
      var src, dst, len := At(source, req, 0), At(dest, req, 0), At(length, req, 0);
      var toA := At(toAram, req, false);
      assert toA == r.toAram && src == r.source && dst == r.dest && len == r.length && req == r.at;
      hide Holds, Mem, Regs;
      var n := if len <= chunkSize then len else chunkSize;
      ghost var log := p.log + [Start(r, n)];
      assert SendLo(p) ==
        p.(log := log, callbackLo := p.callbackLo || r.length <= CHUNK, pendingLo := Some(Chunked(r)));
      StartEither(r, toA, src, dst, n);
      AdvanceRecord(req, len <= chunkSize, r);
    }

    /** Starts a transfer in the direction its type says. */
    method StartEither(ghost r: Request, toA: bool, src: int, dst: int, len: int)
      requires toA == r.toAram && src == r.source && dst == r.dest
      modifies `q
      ensures q == old(q).(log := old(q).log + [Start(r, len)])
    {
      if toA { StartDMA(r.id, true, src, dst, len); } else { StartDMA(r.id, false, dst, src, len); }
    }

    /** Moves the record of the request under way past one chunk, and notes whether that was the last. */
    method AdvanceRecord(req: nat, last: bool, ghost r: Request)
      requires chunkSize == CHUNK && Holds(Mem(), r) && req == r.at
      modifies `q, `length, `source, `dest, `hasCallbackLo
      ensures q == old(q).(callbackLo := old(q).callbackLo || last, pendingLo := Some(Chunked(r)))
      ensures Mem() == Advanced(old(Mem()), r)
      ensures Regs() == old(Regs()).(callbackLo := old(Regs()).callbackLo || last)
    {
      if last { hasCallbackLo := true; }
      AdvanceFields(req, r);
      q := q.(callbackLo := q.callbackLo || last, pendingLo := Some(Chunked(r)));
    }

    method AdvanceFields(req: nat, ghost r: Request)
      requires chunkSize == CHUNK && Holds(Mem(), r) && req == r.at
      modifies `length, `source, `dest
      ensures Mem() == Advanced(old(Mem()), r)
    {
      length := length[req := (At(length, req, 0) - chunkSize) % WORD];
      source := source[req := (At(source, req, 0) + chunkSize) % WORD];
      dest := dest[req := (At(dest, req, 0) + chunkSize) % WORD];
    }

    method InterruptServiceRoutine()
      requires Valid() && Steady(q)
      modifies this
      ensures Valid() && q == Interrupt(old(q))
    {
      hide Represents, Line, Apart, Next, PopHi, ServiceLo;
      CompleteRequest();
      StartNext();
    }

    /** Reports whichever request was on its last transfer. */
    method CompleteRequest()
      requires Valid() && Steady(q)
      modifies `q, `callbackCount, `pendingHi, `pendingLo, `hasCallbackHi, `hasCallbackLo
      ensures Valid() && q == Complete(old(q)) && q.pendingHi.None?
    {
      hide Represents, Line, Apart, Complete;
      ghost var p := q;
      CompleteCases(p);
      CompleteMoves(Mem(), Regs(), p);
      QueueHeads(Mem(), Regs(), p);
      if hasCallbackHi {
        callbackCount := callbackCount + 1;
        pendingHi := 0;
        hasCallbackHi := false;
      } else if hasCallbackLo {
        callbackCount := callbackCount + 1;
        pendingLo := 0;
        hasCallbackLo := false;
      }
      q := Complete(p);
    }

    /** Starts the next transfer: high requests first. */
    method StartNext()
      requires Valid() && q.pendingHi.None?
      modifies `q, `queueHi, `pendingHi, `hasCallbackHi, `queueLo, `pendingLo, `hasCallbackLo, `length, `source, `dest
      ensures Valid() && q == Next(old(q))
    {
      hide Line, Apart, PopHi, ServiceLo;
      PopTaskQueueHi();
      QueueHeads(Mem(), Regs(), q);
      if pendingHi == 0 { ServiceQueueLo(); }
    }

    method PostRequest(req: nat, p: Priority, toA: bool, src: int, dst: int, len: int, ghost id: nat)
      requires Valid() && Steady(q) && req != 0 && Unused(q, req)
      modifies this
      ensures Valid() && q == Post(old(q), Request(req, id, toA, src, dst, len), p)
    {
      hide Represents, Line, Apart, Next;
      ghost var r := Request(req, id, toA, src, dst, len);
      WriteRecord(r, req, toA, src, dst, len);
      Append(req, p, r);
      QueueHeads(Mem(), Regs(), q);
      if pendingHi == 0 && pendingLo == 0 { StartNext(); }
    }

    method WriteRecord(ghost r: Request, req: nat, toA: bool, src: int, dst: int, len: int)
      requires Valid() && req != 0 && Unused(q, req) && r.at == req && r == Request(req, r.id, toA, src, dst, len)
      modifies `next, `toAram, `source, `dest, `length
      ensures Valid() && Holds(Mem(), r) && At(next, req, 0) == 0
    {
      ghost var m := Mem();
      SetRecord(req, toA, src, dst, len);
      WriteFrames(m, Mem(), Regs(), q, req);
      hide Represents;
    }

    method SetRecord(req: nat, toA: bool, src: int, dst: int, len: int)
      modifies `next, `toAram, `source, `dest, `length
      ensures Mem() == Records(old(next)[req := 0], old(toAram)[req := toA], old(source)[req := src],
                               old(dest)[req := dst], old(length)[req := len])
    {
      next, toAram := next[req := 0], toAram[req := toA];
      source, dest, length := source[req := src], dest[req := dst], length[req := len];
    }

    /** Puts the record at the tail of the queue of its priority. */
    method Append(req: nat, p: Priority, ghost r: Request)
      requires Valid() && req != 0 && Unused(q, req) && r.at == req && Holds(Mem(), r) && At(next, req, 0) == 0
      modifies `q, `next, `queueLo, `tailLo, `queueHi, `tailHi
      ensures Valid() && q == Enqueue(old(q), r, p)
    {
      hide Represents, Line, Apart, Holds;
      match p
      case Low => AppendLo(req, r);
      case High => AppendHi(req, r);
      case Other =>
    }

    method AppendLo(req: nat, ghost r: Request)
      requires Valid() && req != 0 && Unused(q, req) && r.at == req && Holds(Mem(), r) && At(next, req, 0) == 0
      modifies `q, `next, `queueLo, `tailLo
      ensures Valid() && q == old(q).(lo := old(q).lo + [r])
    {
      QueueHeads(Mem(), Regs(), q);
      AppendLoMoves(Mem(), Regs(), q, r);
      hide Represents, Line, Apart, Holds, Unused;
      LinkLo(req);
      q := q.(lo := q.lo + [r]);
    }

    method LinkLo(req: nat)
      modifies `next, `queueLo, `tailLo
      ensures Mem() == old(Mem()).(next := if old(queueLo) != 0 then old(next)[old(tailLo) := req] else old(next))
      ensures Regs() == old(Regs()).(queueLo := if old(queueLo) != 0 then old(queueLo) else req, tailLo := req)
    {
      if queueLo != 0 { next := next[tailLo := req]; } else { queueLo := req; }
      tailLo := req;
    }

    method AppendHi(req: nat, ghost r: Request)
      requires Valid() && req != 0 && Unused(q, req) && r.at == req && Holds(Mem(), r) && At(next, req, 0) == 0
      modifies `q, `next, `queueHi, `tailHi
      ensures Valid() && q == old(q).(hi := old(q).hi + [r])
    {
      QueueHeads(Mem(), Regs(), q);
      AppendHiMoves(Mem(), Regs(), q, r);
      hide Represents, Line, Apart, Holds, Unused;
      LinkHi(req);
      q := q.(hi := q.hi + [r]);
    }

    method LinkHi(req: nat)
      modifies `next, `queueHi, `tailHi
      ensures Mem() == old(Mem()).(next := if old(queueHi) != 0 then old(next)[old(tailHi) := req] else old(next))
      ensures Regs() == old(Regs()).(queueHi := if old(queueHi) != 0 then old(queueHi) else req, tailHi := req)
    {
      if queueHi != 0 { next := next[tailHi := req]; } else { queueHi := req; }
      tailHi := req;
    }
  }

  /** Zero stands for an empty queue, and for nothing under way. */
  lemma QueueHeads(m: Records, g: Words, q: Queue)
    requires Represents(m, g, q)
    ensures g.queueHi == 0 <==> q.hi == []
    ensures g.queueLo == 0 <==> q.lo == []
    ensures g.pendingHi == 0 <==> q.pendingHi.None?
    ensures g.pendingLo == 0 <==> q.pendingLo.None?
    ensures g.callbackHi == q.callbackHi && g.callbackLo == q.callbackLo
  {
    assert q.hi != [] ==> Holds(m, q.hi[0]);
    assert q.lo != [] ==> Holds(m, q.lo[0]);
  }

  lemma LineTail(m: Records, s: seq<Request>, head: nat, tail: nat)
    requires Line(m, s, head, tail) && s != []
    ensures Line(m, s[1..], At(m.next, head, 0), tail)
  {
    var t := s[1..];
    assert At(m.next, s[0].at, 0) == NextAt(s, 0);
    forall i | 0 <= i < |t| ensures At(m.next, t[i].at, 0) == NextAt(t, i) && Holds(m, t[i]) {
      assert t[i] == s[i + 1] && At(m.next, s[i + 1].at, 0) == NextAt(s, i + 1);
    }
  }

  lemma PopApart(q: Queue)
    requires Apart(q) && q.hi != [] && q.pendingHi.None?
    ensures Apart(PopHi(q))
  {
    var q' := PopHi(q);
    assert q'.hi == q.hi[1..] && q'.lo == q.lo && q'.pendingLo == q.pendingLo && q'.pendingHi == Some(q.hi[0]);
    hide PopHi;
  }

  lemma TakeApart(q: Queue)
    requires Apart(q) && q.lo != [] && q.pendingLo.None?
    ensures Apart(TakeLo(q))
  {
  }

  lemma SendApart(q: Queue)
    requires Apart(q) && q.pendingLo.Some?
    ensures Apart(SendLo(q))
  {
  }

  lemma PopMoves(m: Records, g: Words, q: Queue)
    requires Represents(m, g, q) && q.hi != [] && q.pendingHi.None?
    ensures Holds(m, q.hi[0]) && g.queueHi == q.hi[0].at
    ensures Represents(m, g.(callbackHi := true, pendingHi := g.queueHi, queueHi := At(m.next, g.queueHi, 0)), PopHi(q))
  {
    LineTail(m, q.hi, g.queueHi, g.tailHi);
    assert Holds(m, q.hi[0]) && g.queueHi == q.hi[0].at;
    PopApart(q);
    assert PopHi(q).hi == q.hi[1..] && PopHi(q).pendingHi == Some(q.hi[0]);
    hide Line, Apart;
  }

  lemma TakeMoves(m: Records, g: Words, q: Queue)
    requires Represents(m, g, q) && q.lo != [] && q.pendingLo.None?
    ensures Represents(m, g.(pendingLo := g.queueLo, queueLo := At(m.next, g.queueLo, 0)), TakeLo(q))
  {
    LineTail(m, q.lo, g.queueLo, g.tailLo);
    assert Holds(m, q.lo[0]) && g.queueLo == q.lo[0].at;
    TakeApart(q);
    hide Line, Apart;
  }

  /** The records after the request under way moved past one chunk. */
  function Advanced(m: Records, r: Request): Records {
    var u := Chunked(r);
    m.(length := m.length[r.at := u.length], source := m.source[r.at := u.source], dest := m.dest[r.at := u.dest])
  }

  /** The record of the low request under way may change; nothing else looks at it. */
  lemma SendMoves(m: Records, g: Words, q: Queue)
    requires Represents(m, g, q) && q.pendingLo.Some?
    ensures var r := q.pendingLo.r;
      && Holds(m, r) && g.pendingLo == r.at && g.callbackLo == q.callbackLo
      && Represents(Advanced(m, r), g.(callbackLo := g.callbackLo || r.length <= CHUNK), SendLo(q))
  {
    var m' := Advanced(m, q.pendingLo.r);
    SendFrames(m, m', g, q);
    SendApart(q);
    SendCases(q);
    hide Line, Apart, SendLo, Chunked, Start, Advanced;
  }

  lemma SendFrames(m: Records, m': Records, g: Words, q: Queue)
    requires Represents(m, g, q) && q.pendingLo.Some?
    requires m' == Advanced(m, q.pendingLo.r)
    ensures Line(m', q.hi, g.queueHi, g.tailHi) && Line(m', q.lo, g.queueLo, g.tailLo)
    ensures Under(m', q.pendingHi, g.pendingHi) && Under(m', Some(Chunked(q.pendingLo.r)), g.pendingLo)
  {
    var r := q.pendingLo.r;
    LineFrame(m, m', q.hi, g.queueHi, g.tailHi, r.at);
    LineFrame(m, m', q.lo, g.queueLo, g.tailLo, r.at);
    assert q.pendingHi.Some? ==> q.pendingHi.r.at != r.at;
    hide Line;
  }

  lemma SendCases(q: Queue)
    ensures q.pendingLo.None? ==> SendLo(q) == q
    ensures q.pendingLo.Some? ==>
      var r := q.pendingLo.r;
      SendLo(q) == q.(log := q.log + [Start(r, if r.length <= CHUNK then r.length else CHUNK)],
                      callbackLo := q.callbackLo || r.length <= CHUNK, pendingLo := Some(Chunked(r)))
  {
  }

  lemma LineFrame(m: Records, m': Records, s: seq<Request>, head: nat, tail: nat, at: nat)
    requires Line(m, s, head, tail) && forall i :: 0 <= i < |s| ==> s[i].at != at
    requires forall c: nat :: c != at ==>
      && At(m'.next, c, 0) == At(m.next, c, 0) && At(m'.toAram, c, false) == At(m.toAram, c, false)
      && At(m'.source, c, 0) == At(m.source, c, 0) && At(m'.dest, c, 0) == At(m.dest, c, 0)
      && At(m'.length, c, 0) == At(m.length, c, 0)
    ensures Line(m', s, head, tail)
  {
    forall i | 0 <= i < |s| ensures Holds(m', s[i]) && At(m'.next, s[i].at, 0) == NextAt(s, i) {
      assert Holds(m, s[i]) && At(m.next, s[i].at, 0) == NextAt(s, i);
    }
  }

  lemma CompleteMoves(m: Records, g: Words, q: Queue)
    requires Represents(m, g, q) && Steady(q)
    ensures Represents(m, if q.callbackHi then g.(callbacks := g.callbacks + 1, pendingHi := 0, callbackHi := false)
                          else if q.callbackLo
                            then g.(callbacks := g.callbacks + 1, pendingLo := 0, callbackLo := false)
                          else g, Complete(q))
  {
    CompleteCases(q);
    assert Apart(Complete(q)) by { hide Line; }
    hide Line, Apart;
  }

  lemma WriteFrames(m: Records, m': Records, g: Words, q: Queue, at: nat)
    requires Represents(m, g, q) && Unused(q, at)
    requires forall c: nat :: c != at ==>
      && At(m'.next, c, 0) == At(m.next, c, 0) && At(m'.toAram, c, false) == At(m.toAram, c, false)
      && At(m'.source, c, 0) == At(m.source, c, 0) && At(m'.dest, c, 0) == At(m.dest, c, 0)
      && At(m'.length, c, 0) == At(m.length, c, 0)
    ensures Represents(m', g, q)
  {
    hide Line, Apart;
    LineFrame(m, m', q.hi, g.queueHi, g.tailHi, at);
    LineFrame(m, m', q.lo, g.queueLo, g.tailLo, at);
  }

  function AppendNext(m: Records, s: seq<Request>, tail: nat, at: nat): Records {
    if s != [] then m.(next := m.next[tail := at]) else m
  }

  lemma LineAppend(m: Records, s: seq<Request>, head: nat, tail: nat, r: Request)
    requires Line(m, s, head, tail) && Holds(m, r) && At(m.next, r.at, 0) == 0
    requires (forall i :: 0 <= i < |s| ==> s[i].at != r.at) && forall i, j :: 0 <= i < j < |s| ==> s[i].at != s[j].at
    ensures Line(AppendNext(m, s, tail, r.at), s + [r], if s != [] then head else r.at, r.at)
  {
    var m', t := AppendNext(m, s, tail, r.at), s + [r];
    forall i | 0 <= i < |t| ensures Holds(m', t[i]) && At(m'.next, t[i].at, 0) == NextAt(t, i) {
      if i < |s| { assert Holds(m, s[i]) && At(m.next, s[i].at, 0) == NextAt(s, i); }
    }
  }

  /** Linking behind the tail of one queue leaves the other alone. */
  lemma LineOther(m: Records, s: seq<Request>, tail: nat, t: seq<Request>, head: nat, last: nat, at: nat)
    requires Line(m, t, head, last) && (s != [] ==> tail == s[|s| - 1].at)
    requires forall i, j :: 0 <= i < |s| && 0 <= j < |t| ==> s[i].at != t[j].at
    ensures Line(AppendNext(m, s, tail, at), t, head, last)
  {
    var m' := AppendNext(m, s, tail, at);
    forall i | 0 <= i < |t| ensures Holds(m', t[i]) && At(m'.next, t[i].at, 0) == NextAt(t, i) {
      assert Holds(m, t[i]) && At(m.next, t[i].at, 0) == NextAt(t, i);
    }
  }

  lemma UnderNext(m: Records, s: seq<Request>, tail: nat, at: nat, p: Pending, c: nat)
    requires Under(m, p, c)
    ensures Under(AppendNext(m, s, tail, at), p, c)
  {
  }

  lemma AppendLoMoves(m: Records, g: Words, q: Queue, r: Request)
    requires Represents(m, g, q) && Unused(q, r.at) && Holds(m, r) && At(m.next, r.at, 0) == 0
    ensures Represents(AppendNext(m, q.lo, g.tailLo, r.at),
                       g.(queueLo := if q.lo != [] then g.queueLo else r.at, tailLo := r.at), q.(lo := q.lo + [r]))
  {
    AppendApart(q, r);
    LineAppend(m, q.lo, g.queueLo, g.tailLo, r);
    LineOther(m, q.lo, g.tailLo, q.hi, g.queueHi, g.tailHi, r.at);
    UnderNext(m, q.lo, g.tailLo, r.at, q.pendingHi, g.pendingHi);
    UnderNext(m, q.lo, g.tailLo, r.at, q.pendingLo, g.pendingLo);
    hide Line, Apart, Under, Holds, Unused, AppendNext;
  }

  lemma AppendHiMoves(m: Records, g: Words, q: Queue, r: Request)
    requires Represents(m, g, q) && Unused(q, r.at) && Holds(m, r) && At(m.next, r.at, 0) == 0
    ensures Represents(AppendNext(m, q.hi, g.tailHi, r.at),
                       g.(queueHi := if q.hi != [] then g.queueHi else r.at, tailHi := r.at), q.(hi := q.hi + [r]))
  {
    AppendApart(q, r);
    LineAppend(m, q.hi, g.queueHi, g.tailHi, r);
    LineOther(m, q.hi, g.tailHi, q.lo, g.queueLo, g.tailLo, r.at);
    UnderNext(m, q.hi, g.tailHi, r.at, q.pendingHi, g.pendingHi);
    UnderNext(m, q.hi, g.tailHi, r.at, q.pendingLo, g.pendingLo);
    hide Line, Apart, Under, Holds, Unused, AppendNext;
  }

  lemma AppendApart(q: Queue, r: Request)
    requires Apart(q) && Unused(q, r.at)
    ensures Apart(q.(lo := q.lo + [r])) && Apart(q.(hi := q.hi + [r]))
  {
  }
}
