/** The ARAM transfer queue: two priorities, one transfer at a time, low requests moved in chunks between which high
    requests cut in. Requests are numbered in the order they are posted. */
module Arq {
  const CHUNK: nat := 4096
  const WORD: int := 0x1_0000_0000

  /** A request as it stands in its record; for a low one under way, what is left of it. */
  datatype Request = Request(at: nat, id: nat, toAram: bool, source: int, dest: int, length: int)

  /** One transfer handed to the hardware. */
  datatype Dma = Dma(id: nat, toAram: bool, mainmem: int, aram: int, length: int)

  datatype Pending = None | Some(r: Request)

  datatype Queue = Queue(
    hi: seq<Request>, lo: seq<Request>,
    pendingHi: Pending, pendingLo: Pending,
    callbackHi: bool, callbackLo: bool,
    log: seq<Dma>, done: seq<nat>)
  {
    /** No transfer is in flight. */
    predicate Idle() { pendingHi.None? && pendingLo.None? }
  }

  const EMPTY: Queue := Queue([], [], None, None, false, false, [], [])

  predicate IsWord(x: int) { 0 <= x < WORD }

  function Start(r: Request, length: int): Dma {
    if r.toAram then Dma(r.id, true, r.source, r.dest, length) else Dma(r.id, false, r.dest, r.source, length)
  }

  function PopHi(q: Queue): Queue {
    if q.hi == [] then q else
    var r := q.hi[0];
    q.(log := q.log + [Start(r, r.length)], callbackHi := true, pendingHi := Some(r), hi := q.hi[1..])
  }

  /** What is left of a request after one chunk, in 32-bit arithmetic. */
  function Chunked(r: Request): Request {
    r.(length := (r.length - CHUNK) % WORD, source := (r.source + CHUNK) % WORD, dest := (r.dest + CHUNK) % WORD)
  }

  function TakeLo(q: Queue): Queue {
    if q.pendingLo.None? && q.lo != [] then q.(pendingLo := Some(q.lo[0]), lo := q.lo[1..]) else q
  }

  function SendLo(q: Queue): Queue {
    if q.pendingLo.None? then q else
    var r := q.pendingLo.r;
    q.(log := q.log + [Start(r, if r.length <= CHUNK then r.length else CHUNK)],
       callbackLo := q.callbackLo || r.length <= CHUNK,
       pendingLo := Some(Chunked(r)))
  }

  function ServiceLo(q: Queue): Queue { SendLo(TakeLo(q)) }

  /** The completion of whichever request was on its last transfer. */
  function Complete(q: Queue): Queue {
    if q.callbackHi then
      q.(done := if q.pendingHi.Some? then q.done + [q.pendingHi.r.id] else q.done, pendingHi := None,
        callbackHi := false)
    else if q.callbackLo then
      q.(done := if q.pendingLo.Some? then q.done + [q.pendingLo.r.id] else q.done, pendingLo := None,
        callbackLo := false)
    else q
  }

  /** Starts the next transfer: high requests first. */
  function Next(q: Queue): Queue {
    var p := PopHi(q);
    if p.pendingHi.None? then ServiceLo(p) else p
  }

  function Interrupt(q: Queue): Queue { Next(Complete(q)) }

  datatype Priority = Low | High | Other

  function Enqueue(q: Queue, r: Request, p: Priority): Queue {
    match p
    case Low => q.(lo := q.lo + [r])
    case High => q.(hi := q.hi + [r])
    case Other => q
  }

  function Post(q: Queue, r: Request, p: Priority): Queue {
    var e := Enqueue(q, r, p);
    if e.Idle() then Next(e) else e
  }

  // ----- what a request's transfers are

  /** How many transfers a low request of this length takes. */
  function Chunks(length: int): (n: int)
    ensures n >= 1
  {
    if length <= CHUNK then 1 else (length + CHUNK - 1) / CHUNK
  }

  /** The transfers that a low request still takes. */
  function LowTransfers(r: Request): seq<Dma>
    requires IsWord(r.length)
    decreases r.length
  {
    if r.length <= CHUNK then [Start(r, r.length)] else [Start(r, CHUNK)] + LowTransfers(Chunked(r))
  }

  /** Chunk `i` of a request starts 4096*i bytes into both ranges. */
  function ChunkAt(r: Request, i: int): Dma {
    Start(r.(source := (r.source + CHUNK * i) % WORD, dest := (r.dest + CHUNK * i) % WORD),
          if r.length - CHUNK * i <= CHUNK then r.length - CHUNK * i else CHUNK)
  }

  lemma ChunksStep(length: int)
    requires CHUNK < length < WORD
    ensures Chunks(length) == 1 + Chunks(length - CHUNK)
  {
  }

  lemma ModStep(x: int, i: int)
    ensures ((x + CHUNK) % WORD + CHUNK * i) % WORD == (x + CHUNK * (i + 1)) % WORD
  {
    var y := x + CHUNK;
    var k := y / WORD;
    assert y == k * WORD + y % WORD;
    assert x + CHUNK * (i + 1) == y % WORD + CHUNK * i + k * WORD;
    Shift(y % WORD + CHUNK * i, k);
  }

  lemma Shift(a: int, k: int)
    ensures (a + k * WORD) % WORD == a % WORD
  {
  }

  lemma ChunkShift(r: Request, i: int)
    requires CHUNK < r.length < WORD && i > 0
    ensures ChunkAt(Chunked(r), i - 1) == ChunkAt(r, i)
  {
    ModStep(r.source, i - 1);
    ModStep(r.dest, i - 1);
    assert Chunked(r).length - CHUNK * (i - 1) == r.length - CHUNK * i;
  }

  /** The transfers of a low request cover both ranges exactly once, in order. */
  lemma {:induction false} LowTransfersCover(r: Request)
    requires IsWord(r.length) && IsWord(r.source) && IsWord(r.dest)
    ensures var t := LowTransfers(r);
      |t| == Chunks(r.length) && forall i :: 0 <= i < |t| ==> t[i] == ChunkAt(r, i)
    decreases r.length
  {
    if r.length > CHUNK {
      var u, t := Chunked(r), LowTransfers(r);
      LowTransfersCover(u);
      ChunksStep(r.length);
      forall i | 0 < i < |t| ensures t[i] == ChunkAt(r, i) {
        assert t[i] == LowTransfers(u)[i - 1];
        ChunkShift(r, i);
      }
    }
  }
}
