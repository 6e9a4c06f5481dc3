/** Seeking in a file: a cached position moved along the file's chain, from where it stands or from the start. */
module CardSeek {
  import opened Fat
  import F = FatOps
  import R = FatRuns

  const READY: int := 0
  const NO_CARD: int := -3
  const BROKEN: int := -6
  const LIMIT: int := -11
  const FATAL_ERROR: int := -128

  /** A file's directory entry: its first block and its length in blocks. */
  datatype Entry = Entry(startBlock: int, length: int)

  /** The cached position of an open file. */
  datatype Position = Position(offset: int, length: int, iBlock: int)

  /** Rounds down to a multiple of the sector size, which is a power of two. */
  function Trunc(n: int, sector: int): int
    requires sector > 0
  {
    n - n % sector
  }

  /** The walk along the chain; false when a link leaves the data area. */
  function Advance(f: seq<int>, c: int, sector: int, p: Position, target: int): (bool, Position)
    requires |f| == ENTRIES && Blocks(c) && ValidNo(p.iBlock, c) && sector > 0
    decreases target - p.offset
  {
    if p.offset >= target then (true, p) else
    var q := p.(offset := p.offset + sector, iBlock := f[p.iBlock]);
    if !ValidNo(q.iBlock, c) then (false, q) else Advance(f, c, sector, q, target)
  }

  function SeekOutcome(f: seq<int>, c: int, sector: int, attached: bool, e: Entry, p: Position, length: int,
                       offset: int): (int, Position)
    requires |f| == ENTRIES && Blocks(c) && sector > 0
  {
    if !attached then (NO_CARD, p)
    else if !ValidNo(p.iBlock, c) || c * sector <= p.offset then (FATAL_ERROR, p)
    else if e.length * sector <= offset || e.length * sector < offset + length then (LIMIT, p)
    else
      var q := p.(length := length);
      var r := if offset < q.offset then q.(offset := 0, iBlock := e.startBlock) else q;
      if !ValidNo(r.iBlock, c) then (BROKEN, r) else
      var (ok, t) := Advance(f, c, sector, r, Trunc(offset, sector));
      if ok then (READY, t.(offset := offset)) else (BROKEN, t)
  }

  /** The position agrees with the chain `ch` of the file. */
  ghost predicate OnChain(ch: seq<int>, sector: int, p: Position)
    requires sector > 0
  {
    0 <= p.offset < |ch| * sector && p.iBlock == BlockAt(ch, sector, p.offset)
  }

  function BlockAt(ch: seq<int>, sector: int, offset: int): int
    requires sector > 0
  {
    if 0 <= offset / sector < |ch| then ch[offset / sector] else END
  }

  lemma Within(n: int, sector: int, offset: int)
    requires sector > 0 && 0 <= offset < n * sector
    ensures 0 <= offset / sector < n
  {
    assert offset == offset / sector * sector + offset % sector;
    Multiples(n, offset / sector, sector);
  }

  lemma Multiples(a: int, b: int, d: int)
    requires d > 0
    ensures a <= b ==> a * d <= b * d
    ensures a < b ==> a * d + d <= b * d
  {
    if a < b {
      Positive(b - a - 1, d);
      assert b * d == a * d + d + (b - a - 1) * d;
    }
  }

  lemma {:induction false} Positive(k: nat, d: nat)
    ensures k * d >= 0
  {
    if k > 0 { Positive(k - 1, d); assert k * d == (k - 1) * d + d; }
  }

  lemma DivStep(offset: int, sector: int)
    requires sector > 0
    ensures (offset + sector) / sector == offset / sector + 1
  {
    var q, r := offset / sector, offset % sector;
    assert offset + sector == (q + 1) * sector + r;
    DivOf(offset + sector, sector, q + 1, r);
  }

  lemma DivOf(x: int, d: int, q: int, r: int)
    requires d > 0 && x == q * d + r && 0 <= r < d
    ensures x / d == q
  {
    assert x == x / d * d + x % d;
    Multiples(x / d, q, d);
    Multiples(q, x / d, d);
  }

  /** Below the target, whole sectors remain to be walked. */
  lemma Remaining(offset: int, target: int, sector: int)
    requires sector > 0 && 0 <= offset
    ensures offset < Trunc(target, sector) <==> offset / sector < target / sector
  {
    var t := Trunc(target, sector);
    assert t == target / sector * sector;
    assert offset == offset / sector * sector + offset % sector;
    Multiples(offset / sector, target / sector, sector);
    Multiples(target / sector, offset / sector, sector);
  }

  /** Walking forward along a chain ends at the block of the target, whatever the offset walked from. */
  lemma {:induction false} AdvanceLands(f: seq<int>, c: int, sector: int, ch: seq<int>, p: Position, offset: int)
    requires |f| == ENTRIES && Blocks(c) && sector > 0 && IsChain(f, c, ch)
    requires OnChain(ch, sector, p) && 0 <= offset < |ch| * sector && p.offset / sector <= offset / sector
      && ValidNo(p.iBlock, c)
    ensures var (ok, q) := Advance(f, c, sector, p, Trunc(offset, sector));
      ok && q.length == p.length && q.iBlock == BlockAt(ch, sector, offset)
    decreases offset / sector - p.offset / sector
  {
    Within(|ch|, sector, p.offset);
    Within(|ch|, sector, offset);
    Remaining(p.offset, offset, sector);
    var i := p.offset / sector;
    if i < offset / sector {
      var q := p.(offset := p.offset + sector, iBlock := f[p.iBlock]);
      DivStep(p.offset, sector);
      assert f[ch[i]] == After(ch, i) && q.iBlock == ch[i + 1];
      InChain(|ch|, sector, q.offset, i + 1);
      AdvanceLands(f, c, sector, ch, q, offset);
    }
  }

  lemma InChain(n: int, sector: int, offset: int, q: int)
    requires sector > 0 && offset / sector == q < n && 0 <= offset
    ensures offset < n * sector
  {
    assert offset == q * sector + offset % sector;
    Multiples(q, n, sector);
  }

  lemma ChainShort(f: seq<int>, c: int, ch: seq<int>)
    requires |f| == ENTRIES && Blocks(c) && IsChain(f, c, ch)
    ensures |ch| <= c - FIRST
  {
    var on := set b | b in ch;
    var s := seq(c - FIRST, i => i + FIRST);
    var data := set b | b in s;
    LengthIsCount(ch, on);
    LengthIsCount(s, data);
    forall b | FIRST <= b < c ensures b in data { assert s[b - FIRST] == b; }
    forall b | b in on ensures b in data { var i :| 0 <= i < |ch| && ch[i] == b; }
    assert on + (data - on) == data;
  }

  /** Every in-range seek succeeds and ends on the block that holds the offset; every other one is refused and changes
      nothing. Where the position stood before makes no difference. */
  lemma SeekLands(f: seq<int>, c: int, sector: int, e: Entry, ch: seq<int>, p: Position, length: int, offset: int)
    requires |f| == ENTRIES && Blocks(c) && sector > 0 && IsChain(f, c, ch)
    requires ch != [] && e == Entry(ch[0], |ch|) && OnChain(ch, sector, p) && 0 <= offset && 0 <= length
    ensures SeekOutcome(f, c, sector, true, e, p, length, offset) ==
      if offset < |ch| * sector && offset + length <= |ch| * sector
      then (READY, Position(offset, length, BlockAt(ch, sector, offset)))
      else (LIMIT, p)
  {
    ChainShort(f, c, ch);
    Within(|ch|, sector, p.offset);
    assert |ch| * sector <= c * sector;
    if offset < |ch| * sector && offset + length <= |ch| * sector {
      var q := p.(length := length);
      var r := if offset < q.offset then q.(offset := 0, iBlock := e.startBlock) else q;
      Within(|ch|, sector, offset);
      if offset < q.offset { DivOf(0, sector, 0, 0); }
      Monotone(r.offset, offset, sector);
      AdvanceLands(f, c, sector, ch, r, offset);
    }
  }

  lemma Monotone(a: int, b: int, d: int)
    requires d > 0 && a <= b
    ensures a / d <= b / d
  {
    assert a == a / d * d + a % d && b == b / d * d + b % d;
    Multiples(b / d, a / d, d);
  }

  datatype Request = Request(length: int, offset: int)

  function SeekAll(f: seq<int>, c: int, sector: int, e: Entry, p: Position, rs: seq<Request>): Position
    requires |f| == ENTRIES && Blocks(c) && sector > 0
    decreases |rs|
  {
    if rs == [] then p else
    var q := SeekAll(f, c, sector, e, p, rs[..|rs| - 1]);
    SeekOutcome(f, c, sector, true, e, q, rs[|rs| - 1].length, rs[|rs| - 1].offset).1
  }

  /** After any sequence of seeks, forward, backward or out of range, the position is on the block of its offset. */
  lemma {:induction false} SeeksStayOnChain(f: seq<int>, c: int, sector: int, e: Entry, ch: seq<int>, p: Position,
                                            rs: seq<Request>)
    requires |f| == ENTRIES && Blocks(c) && sector > 0 && IsChain(f, c, ch)
    requires ch != [] && e == Entry(ch[0], |ch|) && OnChain(ch, sector, p)
    requires forall i :: 0 <= i < |rs| ==> rs[i].offset >= 0 && rs[i].length >= 0
    ensures OnChain(ch, sector, SeekAll(f, c, sector, e, p, rs))
    decreases |rs|
  {
    if rs != [] {
      var n := |rs| - 1;
      SeeksStayOnChain(f, c, sector, e, ch, p, rs[..n]);
      SeekLands(f, c, sector, e, ch, SeekAll(f, c, sector, e, p, rs[..n]), rs[n].length, rs[n].offset);
    }
  }

  /** The first seek in a file just opened. */
  lemma SeekFromStart(f: seq<int>, c: int, sector: int, ch: seq<int>, length: int, offset: int)
    requires |f| == ENTRIES && Blocks(c) && sector > 0 && IsChain(f, c, ch) && ch != []
    requires 0 <= offset < |ch| * sector && 0 <= length && offset + length <= |ch| * sector
    ensures 0 <= offset / sector < |ch|
    ensures SeekOutcome(f, c, sector, true, Entry(ch[0], |ch|), Position(0, 0, ch[0]), length, offset)
            == (READY, Position(offset, length, ch[offset / sector]))
  {
    DivOf(0, sector, 0, 0);
    Within(|ch|, sector, offset);
    SeekLands(f, c, sector, Entry(ch[0], |ch|), ch, Position(0, 0, ch[0]), length, offset);
  }

  /** In a file just allocated, every in-range seek from the start ends on the block of that number among the first free
      blocks in circular order. */
  lemma SeekInAllocated(f: seq<int>, c: int, sector: int, n: nat, length: int, offset: int)
    requires Table(f) && Blocks(c) && |FreeSet(f, c)| == f[FREE_BLOCKS] && 0 < n <= |FreeSet(f, c)| && sector > 0
    requires 0 <= offset < n * sector && 0 <= length && offset + length <= n * sector
    ensures var (code, g, start) := F.Alloc(f, c, true, n);
      && |g| == ENTRIES && 0 <= offset / sector < n
      && SeekOutcome(g, c, sector, true, Entry(start, n), Position(0, 0, start), length, offset)
         == (READY, Position(offset, length, F.Available(f, c)[offset / sector]))
  {
    var ch := F.Available(f, c)[..n];
    Within(n, sector, offset);
    hide SeekOutcome;
    F.AllocGood(f, c, n);
    hide F.Alloc, F.Accepts, FreeSet, IsChain;
    SeekFromStart(F.Alloc(f, c, true, n).1, c, sector, ch, length, offset);
  }

  // ----- the same, in the source's own form

  /** An open file. */
  class FileInfo {
    var fileNo: int
    var offset: int
    var length: int
    var iBlock: int

    function Pos(): Position
      reads this
    {
      Position(offset, length, iBlock)
    }
  }

  class DirControl {
    var attached: bool
    const cBlock: int
    const sectorSize: int
    const fat: array<int>
    var startBlocks: seq<int>
    var lengths: seq<int>

    constructor (c: int, sector: int, table: array<int>)
      ensures cBlock == c && sectorSize == sector && fat == table && !attached && startBlocks == [] && lengths == []
    {
      attached, cBlock, sectorSize, fat, startBlocks, lengths := false, c, sector, table, [], [];
    }

    method Seek(info: FileInfo, length: int, offset: int) returns (code: int)
      requires fat.Length == ENTRIES && Blocks(cBlock) && sectorSize > 0
        && 0 <= info.fileNo < |startBlocks| == |lengths|
      modifies info`offset, info`length, info`iBlock
      ensures (code, info.Pos()) ==
        SeekOutcome(fat[..], cBlock, sectorSize, attached, Entry(startBlocks[info.fileNo], lengths[info.fileNo]),
                      old(info.Pos()), length, offset)
    {
      if !attached { return NO_CARD; }
      if !ValidNo(info.iBlock, cBlock) || cBlock * sectorSize <= info.offset { return FATAL_ERROR; }
      var entLength := lengths[info.fileNo];
      var entStart := startBlocks[info.fileNo];
      if entLength * sectorSize <= offset || entLength * sectorSize < offset + length { return LIMIT; }
      info.length := length;
      if offset < info.offset {
        info.offset := 0;
        info.iBlock := entStart;
        if !ValidNo(info.iBlock, cBlock) { return BROKEN; }
      }
      ghost var p, t := info.Pos(), Trunc(offset, sectorSize);
      while info.offset < Trunc(offset, sectorSize)
        invariant ValidNo(info.iBlock, cBlock) && info.length == length
        invariant Advance(fat[..], cBlock, sectorSize, info.Pos(), t) == Advance(fat[..], cBlock, sectorSize, p, t)
        decreases Trunc(offset, sectorSize) - info.offset
      {
        info.offset := info.offset + sectorSize;
        info.iBlock := fat[info.iBlock];
        if !ValidNo(info.iBlock, cBlock) { return BROKEN; }
      }
      info.offset := offset;
      code := READY;
    }
  }
}
