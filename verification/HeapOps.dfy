/** The operations on one heap as functions, and what they promise. */
module HeapOps {
  import opened Blocks

  /** A well-formed cell. */
  predicate Cell(b: Block) {
    b.at > 0 && b.at % 32 == 0 && b.len % 32 == 0 && b.len >= MIN_OBJECT && b.End() < WORD
  }

  ghost predicate Cells(s: seq<Block>) {
    forall i :: 0 <= i < |s| ==> Cell(s[i])
  }

  ghost predicate AllApart(s: seq<Block>, t: seq<Block>) {
    forall i, j :: 0 <= i < |s| && 0 <= j < |t| ==> Apart(s[i], t[j])
  }

  ghost predicate Scattered(s: seq<Block>) {
    forall i, j :: 0 <= i < j < |s| ==> Apart(s[i], s[j])
  }

  /** A live heap: canonical free list, disjoint cells, nothing lost. */
  ghost predicate GoodHeap(h: Heap) {
    && 0 <= h.size <= 0x7FFF_FFE0
    && Canon(h.free) && Scattered(h.used) && AllApart(h.free, h.used)
    && Cells(h.free) && Cells(h.used)
    && Total(h.free) + Total(h.used) == h.size
  }

  /** Address `x` belongs to the heap, free or allocated. */
  ghost predicate Owns(h: Heap, x: int) {
    Covers(h.free, x) || Covers(h.used, x)
  }

  // ----- allocation

  function FirstFit(s: seq<Block>, req: int): (i: nat)
    ensures i <= |s|
    ensures forall j :: 0 <= j < i ==> Signed(s[j].len) < Signed(req)
    ensures i < |s| ==> Signed(req) <= Signed(s[i].len)
  {
    if s == [] || Signed(req) <= Signed(s[0].len) then 0 else 1 + FirstFit(s[1..], req)
  }

  /** Bytes taken for a request: header included, in units of 32. */
  function Required(size: int): int { RoundUp(size + HEADER) }

  /** First fit. The whole cell is handed out when less than 0x40 bytes would remain of it; otherwise its
      upper part stays free. The second result is the address handed out, 0 for none. */
  function Alloc(h: Heap, size: nat): (Heap, nat) {
    if Signed(size) <= 0 || !h.Live() then (h, 0) else
    var req := Required(size);
    var i := FirstFit(h.free, req);
    if i == |h.free| then (h, 0) else (Grant(h, i, req), h.free[i].at + HEADER)
  }

  /** What is left of a cell after `req` bytes are taken, in 32-bit arithmetic. */
  function Leftover(b: Block, req: int): nat { (b.len - req) % WORD }

  function Granted(b: Block, req: nat): Block {
    if Leftover(b, req) < MIN_OBJECT then b else Block(b.at, req)
  }

  function Remaining(b: Block, req: nat): seq<Block> {
    if Leftover(b, req) < MIN_OBJECT then [] else [Block((b.at + req) % WORD, Leftover(b, req))]
  }

  function Grant(h: Heap, i: nat, req: nat): Heap
    requires i < |h.free|
  {
    Heap(h.size, h.free[..i] + Remaining(h.free[i], req) + h.free[i + 1..], [Granted(h.free[i], req)] + h.used)
  }

  // ----- freeing

  /** The index of the allocated cell at `at`. */
  function Find(s: seq<Block>, at: int): (j: nat)
    ensures j <= |s|
    ensures forall k :: 0 <= k < j ==> s[k].at != at
    ensures j < |s| ==> s[j].at == at
  {
    if s == [] || s[0].at == at then 0 else 1 + Find(s[1..], at)
  }

  function Release(h: Heap, j: nat): Heap
    requires j < |h.used|
  {
    Heap(h.size, Join(h.free, h.used[j]), h.used[..j] + h.used[j + 1..])
  }

  /** Frees the cell whose data starts at `ptr`. A null pointer and a dead heap are ignored. */
  function Free(h: Heap, ptr: nat): Heap
    requires ptr != 0 && h.Live() ==> Find(h.used, ptr - HEADER) < |h.used|
  {
    if ptr == 0 || !h.Live() then h else Release(h, Find(h.used, ptr - HEADER))
  }

  /** Gives the heap a further range of memory. */
  function AddRange(h: Heap, b: Block): Heap {
    if !h.Live() then h else Heap(h.size + b.len, Join(h.free, b), h.used)
  }

  // ----- allocation, proved

  lemma RequiredBounds(size: int)
    requires 0 < size <= MAX_REQUEST
    ensures var r := Required(size);
      r % 32 == 0 && size + HEADER <= r <= size + HEADER + 31 && Signed(r) == r >= MIN_OBJECT
  {
  }

  lemma TotalAt(s: seq<Block>, i: nat)
    requires i < |s|
    ensures Total(s) == Total(s[..i]) + s[i].len + Total(s[i + 1..])
  {
    assert s == s[..i] + [s[i]] + s[i + 1..];
    TotalParts(s[..i], s[i], s[i + 1..]);
  }

  lemma FitsInWord(h: Heap, i: nat)
    requires GoodHeap(h) && i < |h.free|
    ensures h.free[i].len <= 0x7FFF_FFE0 && Signed(h.free[i].len) == h.free[i].len
  {
    TotalAt(h.free, i);
  }

  lemma SplitArithmetic(len: nat, req: nat)
    requires req <= len <= 0x7FFF_FFE0 && len % 32 == 0 && req % 32 == 0
    ensures (len - req) % WORD == len - req && (len - req) % 32 == 0
    ensures len - req < MIN_OBJECT ==> len - req <= 0x20
  {
  }

  /** The granted part and the remaining part are what the cell was. */
  lemma Split(b: Block, req: nat)
    requires Cell(b) && b.len <= 0x7FFF_FFE0 && MIN_OBJECT <= req <= b.len && req % 32 == 0
    ensures var g, r := Granted(b, req), Remaining(b, req);
      && Cell(g) && g.at == b.at && req <= g.len <= req + 0x20
      && (r == [] ==> g == b)
      && (r != [] ==> |r| == 1 && Cell(r[0]) && r[0].at == g.End() && r[0].End() == b.End())
      && g.len + Total(r) == b.len
  {
    var left := b.len - req;
    SplitArithmetic(b.len, req);
    assert Leftover(b, req) == left && (b.at + req) % WORD == b.at + req && (b.at + req) % 32 == 0;
    hide Leftover;
    if left >= MIN_OBJECT { assert Total(Remaining(b, req)) == left by { assert Remaining(b, req)[..0] == []; } }
  }

  /** Every byte of the heap stays in it; the granted ones move from free to allocated. */
  lemma GrantCovers(h: Heap, i: nat, req: nat, x: int)
    requires GoodHeap(h) && i < |h.free| && MIN_OBJECT <= req <= h.free[i].len && req % 32 == 0
    ensures var h', g := Grant(h, i, req), Granted(h.free[i], req);
      && (Covers(h'.free, x) <==> Covers(h.free, x) && !g.Holds(x))
      && (Covers(h'.used, x) <==> Covers(h.used, x) || g.Holds(x))
  {
    var b, g, r := h.free[i], Granted(h.free[i], req), Remaining(h.free[i], req);
    var p, t := h.free[..i], h.free[i + 1..];
    FitsInWord(h, i);
    Split(b, req);
    assert h.free == p + [b] + t;
    CoversParts(p, b, t, x);
    CoversAppend(p + r, t, x);
    CoversAppend(p, r, x);
    if r != [] { CoversOne(r[0], x); assert r == [r[0]]; }
    OnlyOne(h.free, i, x);
    CoversAppend([g], h.used, x);
    CoversOne(g, x);
  }

  lemma OnlyOne(s: seq<Block>, i: nat, x: int)
    requires Canon(s) && i < |s|
    ensures s[i].Holds(x) ==> !Covers(s[..i], x) && !Covers(s[i + 1..], x)
  {
  }

  lemma GrantCanon(h: Heap, i: nat, req: nat)
    requires GoodHeap(h) && i < |h.free| && MIN_OBJECT <= req <= h.free[i].len && req % 32 == 0
    ensures Canon(Grant(h, i, req).free) && Cells(Grant(h, i, req).free)
  {
    var b, r := h.free[i], Remaining(h.free[i], req);
    var p, t := h.free[..i], h.free[i + 1..];
    FitsInWord(h, i);
    Split(b, req);
    if r == [] {
      assert Grant(h, i, req).free == p + t;
    } else {
      assert Grant(h, i, req).free == p + [r[0]] + t;
      CanonParts(p, r[0], t);
    }
  }

  lemma GrantApart(h: Heap, i: nat, req: nat)
    requires GoodHeap(h) && i < |h.free| && MIN_OBJECT <= req <= h.free[i].len && req % 32 == 0
    ensures var h' := Grant(h, i, req); Scattered(h'.used) && Cells(h'.used) && AllApart(h'.free, h'.used)
  {
    var b, g, r := h.free[i], Granted(h.free[i], req), Remaining(h.free[i], req);
    var h' := Grant(h, i, req);
    FitsInWord(h, i);
    Split(b, req);
    forall j | 0 <= j < |h.used| ensures Apart(g, h.used[j]) && (r != [] ==> Apart(r[0], h.used[j])) {
      assert Apart(b, h.used[j]);
    }
    forall j | 0 <= j < |h.free| && j != i ensures Apart(h.free[j], g) {
      assert j < i ==> h.free[j].End() < b.at;
    }
    forall m, n | 0 <= m < |h'.free| && 0 <= n < |h'.used| ensures Apart(h'.free[m], h'.used[n]) {
      FreeIndex(h, i, req, m);
    }
  }

  lemma FreeIndex(h: Heap, i: nat, req: nat, m: nat)
    requires i < |h.free| && m < |Grant(h, i, req).free|
    ensures var f, r := Grant(h, i, req).free, Remaining(h.free[i], req);
      (r != [] && f[m] == r[0]) || exists j :: 0 <= j < |h.free| && j != i && f[m] == h.free[j]
  {
    var r := Remaining(h.free[i], req);
    if m < i {
      assert Grant(h, i, req).free[m] == h.free[m];
    } else if m >= i + |r| {
      assert Grant(h, i, req).free[m] == h.free[m - |r| + 1];
    }
  }

  lemma GrantGood(h: Heap, i: nat, req: nat)
    requires GoodHeap(h) && i < |h.free| && MIN_OBJECT <= req <= h.free[i].len && req % 32 == 0
    ensures GoodHeap(Grant(h, i, req))
  {
    var b, g, r := h.free[i], Granted(h.free[i], req), Remaining(h.free[i], req);
    FitsInWord(h, i);
    Split(b, req);
    GrantCanon(h, i, req);
    GrantApart(h, i, req);
    TotalAt(h.free, i);
    TotalAppend(h.free[..i] + r, h.free[i + 1..]);
    TotalAppend(h.free[..i], r);
    TotalAppend([g], h.used);
    TotalAppend([], [g]);
    assert [] + [g] == [g] && [g][..0] == [];
  }

  lemma AllocPicks(h: Heap, size: nat)
    requires GoodHeap(h) && 0 < size <= MAX_REQUEST
    ensures var req := Required(size); var i := FirstFit(h.free, req);
      && (forall j :: 0 <= j < i ==> h.free[j].len < req)
      && (i == |h.free| ==> Alloc(h, size) == (h, 0))
      && (i < |h.free| ==>
         Alloc(h, size) == (Grant(h, i, req), h.free[i].at + HEADER) && MIN_OBJECT <= req <= h.free[i].len)
  {
    RequiredBounds(size);
    forall j | 0 <= j < |h.free| ensures Signed(h.free[j].len) == h.free[j].len { FitsInWord(h, j); }
  }

  /** Allocation keeps the heap good, and fails exactly when no free cell is long enough. */
  lemma AllocGood(h: Heap, size: nat)
    requires GoodHeap(h) && size <= MAX_REQUEST
    ensures var (h', ptr) := Alloc(h, size);
      && GoodHeap(h') && h'.size == h.size
      && (ptr == 0 <==> size == 0 || forall i :: 0 <= i < |h.free| ==> h.free[i].len < Required(size))
      && (ptr == 0 ==> h' == h)
  {
    if size > 0 {
      AllocPicks(h, size);
      RequiredBounds(size);
      var i := FirstFit(h.free, Required(size));
      if i < |h.free| { GrantGood(h, i, Required(size)); }
    }
  }

  /** What a request gets: a cell of the right length, out of the free bytes, at the lowest address where one fits. */
  lemma AllocGrants(h: Heap, size: nat)
    requires GoodHeap(h) && size <= MAX_REQUEST && Alloc(h, size).1 != 0
    ensures var (h', ptr) := Alloc(h, size);
      && |h'.used| == |h.used| + 1 && h'.used[1..] == h.used
      && var g := h'.used[0];
      && ptr == g.at + HEADER && size + HEADER <= g.len <= size + 0x5F
      && (forall x :: g.Holds(x) ==> Covers(h.free, x))
      && (forall x :: Covers(h'.free, x) <==> Covers(h.free, x) && !g.Holds(x))
      && (forall j :: 0 <= j < |h.free| && h.free[j].at < g.at ==> h.free[j].len < Required(size))
  {
    var req := Required(size);
    AllocPicks(h, size);
    RequiredBounds(size);
    var i := FirstFit(h.free, req);
    FitsInWord(h, i);
    Split(h.free[i], req);
    var g := Granted(h.free[i], req);
    forall x ensures Covers(Grant(h, i, req).free, x) <==> Covers(h.free, x) && !g.Holds(x) {
      GrantCovers(h, i, req, x);
    }
    assert forall x :: h.free[i].Holds(x) ==> Covers(h.free, x);
    assert ([g] + h.used)[1..] == h.used;
  }

  lemma LastSizes(size: nat, b: Block)
    requires MAX_REQUEST < size <= 0x7FFF_FFFF && MIN_OBJECT <= b.len <= 0x7FFF_FFE0
    ensures var req := Required(size); 0x8000_0000 <= req < WORD && Signed(req) < 0 && Leftover(b, req) >= MIN_OBJECT
  {
  }

  /** The signed test lets a request in the last 63 sizes through to the first free cell, and the heap is ruined. */
  lemma AllocRuins(h: Heap, size: nat)
    requires GoodHeap(h) && MAX_REQUEST < size <= 0x7FFF_FFFF && h.free != []
    ensures !GoodHeap(Alloc(h, size).0)
  {
    FitsInWord(h, 0);
    var req := Required(size);
    LastSizes(size, h.free[0]);
    var h' := Grant(h, 0, req);
    assert Alloc(h, size).0 == h';
    TotalAt(h'.used, 0);
    assert h'.used[0] == Block(h.free[0].at, req);
    assert Total(h'.used) > h'.size;
  }

  /** Which requests leave a good heap good. */
  lemma AllocGoodIff(h: Heap, size: nat)
    requires GoodHeap(h) && size < WORD
    ensures GoodHeap(Alloc(h, size).0) <==> !(MAX_REQUEST < size <= 0x7FFF_FFFF) || h.free == []
  {
    if size <= MAX_REQUEST {
      AllocGood(h, size);
    } else if size <= 0x7FFF_FFFF && h.free != [] {
      AllocRuins(h, size);
    } else {
      assert Alloc(h, size) == (h, 0);
    }
  }

  // ----- freeing, proved

  lemma RemoveCovers(s: seq<Block>, j: nat, x: int)
    requires j < |s|
    ensures Covers(s, x) <==> Covers(s[..j] + s[j + 1..], x) || s[j].Holds(x)
  {
    assert s == s[..j] + [s[j]] + s[j + 1..];
    CoversParts(s[..j], s[j], s[j + 1..], x);
    CoversAppend(s[..j], s[j + 1..], x);
  }

  lemma JoinApart(s: seq<Block>, b: Block, c: Block)
    requires Canon(s) && b.len > 0 && c.len > 0 && Clear(s, c) && Clear(s, b) && Apart(b, c)
    ensures Clear(Join(s, b), c)
  {
    var r := Join(s, b);
    JoinCanon(s, b);
    forall i | 0 <= i < |r| ensures Apart(r[i], c) {
      var x := if c.at <= r[i].at then r[i].at else c.at;
      if r[i].Holds(x) && c.Holds(x) {
        JoinCovers(s, b, x);
        assert Covers(r, x);
      }
    }
  }

  lemma JoinCells(s: seq<Block>, b: Block)
    requires Cells(s) && Cell(b)
    ensures Cells(Join(s, b))
  {
    var i := Place(s, b.at);
    var (c, rest) := WithNext(s, i, b);
    assert Cell(c) && Cells(rest);
  }

  lemma ReleaseApart(h: Heap, j: nat)
    requires GoodHeap(h) && j < |h.used|
    ensures var h' := Release(h, j); Scattered(h'.used) && Cells(h'.used) && AllApart(h'.free, h'.used)
  {
    var h', b := Release(h, j), h.used[j];
    assert Clear(h.free, b);
    forall k | 0 <= k < |h'.used| ensures Clear(h'.free, h'.used[k]) && Cell(h'.used[k]) {
      var m := if k < j then k else k + 1;
      var c := h.used[m];
      assert h'.used[k] == c && Cell(c) && Clear(h.free, c) && Apart(b, c) && Cell(b);
      JoinApart(h.free, b, c);
    }
  }

  lemma ReleaseTotal(h: Heap, j: nat)
    requires j < |h.used|
    ensures var h' := Release(h, j); Total(h'.free) + Total(h'.used) == Total(h.free) + Total(h.used)
  {
    JoinTotal(h.free, h.used[j]);
    TotalAt(h.used, j);
    TotalAppend(h.used[..j], h.used[j + 1..]);
  }

  /** Freeing makes the bytes of the cell, and no others, free. */
  lemma ReleaseBytes(h: Heap, j: nat, x: int)
    requires j < |h.used|
    ensures Covers(Release(h, j).free, x) <==> Covers(h.free, x) || h.used[j].Holds(x)
    ensures Owns(Release(h, j), x) <==> Owns(h, x)
  {
    JoinCovers(h.free, h.used[j], x);
    RemoveCovers(h.used, j, x);
  }

  /** Freeing a held cell keeps the heap good. */
  lemma ReleaseGood(h: Heap, j: nat)
    requires GoodHeap(h) && j < |h.used|
    ensures GoodHeap(Release(h, j)) && Release(h, j).size == h.size
  {
    var b := h.used[j];
    assert Clear(h.free, b) && Cell(b);
    JoinCanon(h.free, b);
    JoinCells(h.free, b);
    ReleaseApart(h, j);
    ReleaseTotal(h, j);
  }

  /** A range of memory that the heap does not overlap is added to it. */
  lemma AddRangeGood(h: Heap, b: Block)
    requires GoodHeap(h) && Cell(b) && Clear(h.free, b) && Clear(h.used, b) && h.size + b.len <= 0x7FFF_FFE0
    ensures GoodHeap(AddRange(h, b))
    ensures forall x :: Owns(AddRange(h, b), x) <==> Owns(h, x) || b.Holds(x)
  {
    JoinCanon(h.free, b);
    JoinCells(h.free, b);
    JoinTotal(h.free, b);
    forall k | 0 <= k < |h.used| ensures Clear(AddRange(h, b).free, h.used[k]) { JoinApart(h.free, b, h.used[k]); }
    forall x ensures Owns(AddRange(h, b), x) <==> Owns(h, x) || b.Holds(x) { JoinCovers(h.free, b, x); }
  }

  // ----- round trip, and independence of order

  /** Freeing what was just allocated gives back the very same heap. */
  lemma AllocFreeRestores(h: Heap, size: nat)
    requires GoodHeap(h) && size <= MAX_REQUEST && Alloc(h, size).1 != 0
    ensures var (h', ptr) := Alloc(h, size);
      Find(h'.used, ptr - HEADER) < |h'.used| && Free(h', ptr) == h
  {
    var (h', ptr) := Alloc(h, size);
    AllocGood(h, size);
    AllocGrants(h, size);
    assert Find(h'.used, ptr - HEADER) == 0;
    ReleaseGood(h', 0);
    var h2 := Release(h', 0);
    forall x ensures Covers(h2.free, x) <==> Covers(h.free, x) { ReleaseBytes(h', 0, x); }
    CanonUnique(h2.free, h.free);
  }

  /** The free list after freeing cells `bs`, one after another. */
  function JoinAll(s: seq<Block>, bs: seq<Block>): seq<Block> {
    if bs == [] then s else Join(JoinAll(s, bs[..|bs| - 1]), bs[|bs| - 1])
  }

  lemma {:induction false} JoinAllKeeps(s: seq<Block>, bs: seq<Block>)
    requires Canon(s) && Scattered(bs) && AllApart(s, bs)
    requires forall i :: 0 <= i < |bs| ==> bs[i].len > 0
    ensures Canon(JoinAll(s, bs))
    ensures forall x :: Covers(JoinAll(s, bs), x) <==> Covers(s, x) || Covers(bs, x)
    ensures forall c: Block :: c.len > 0 && Clear(s, c) && Clear(bs, c) ==> Clear(JoinAll(s, bs), c)
  {
    if bs != [] {
      var cs, b := bs[..|bs| - 1], bs[|bs| - 1];
      assert bs == cs + [b];
      JoinAllKeeps(s, cs);
      var r := JoinAll(s, cs);
      assert Clear(s, b) && Clear(cs, b);
      JoinCanon(r, b);
      forall x ensures Covers(Join(r, b), x) <==> Covers(s, x) || Covers(bs, x) {
        JoinCovers(r, b, x);
        CoversAppend(cs, [b], x);
        CoversOne(b, x);
      }
      forall c: Block | c.len > 0 && Clear(s, c) && Clear(bs, c) ensures Clear(Join(r, b), c) {
        assert Clear(cs, c) by { forall i | 0 <= i < |cs| ensures Apart(cs[i], c) { assert bs[i] == cs[i]; } }
        assert Apart(bs[|bs| - 1], c);
        JoinApart(r, b, c);
      }
    }
  }

  /** Frees of the same bytes, in any order and however divided into cells, end with the same free list. */
  lemma FreesCommute(s: seq<Block>, bs: seq<Block>, cs: seq<Block>)
    requires Canon(s) && Scattered(bs) && AllApart(s, bs) && Scattered(cs) && AllApart(s, cs)
    requires forall i :: 0 <= i < |bs| ==> bs[i].len > 0
    requires forall i :: 0 <= i < |cs| ==> cs[i].len > 0
    requires forall x :: Covers(bs, x) <==> Covers(cs, x)
    ensures JoinAll(s, bs) == JoinAll(s, cs)
  {
    JoinAllKeeps(s, bs);
    JoinAllKeeps(s, cs);
    CanonUnique(JoinAll(s, bs), JoinAll(s, cs));
  }

  // ----- OSCheckHeap

  /** What the check asks of one cell. */
  predicate CellOk(b: Block, lo: nat, hi: nat) {
    lo <= b.at < hi && b.at % 32 == 0 && Signed(b.len) >= MIN_OBJECT && b.len % 32 == 0
  }

  /** The walk of the allocated list: the total so far, -1 as soon as a test fails. */
  function CheckUsed(s: seq<Block>, lo: nat, hi: nat, size: int, total: int): int
    decreases |s|
  {
    if s == [] then total
    else if !CellOk(s[0], lo, hi) then -1
    else if total + Signed(s[0].len) <= 0 || total + Signed(s[0].len) > size then -1
    else CheckUsed(s[1..], lo, hi, size, total + Signed(s[0].len))
  }

  /** The walk of the free list: the total so far and the bytes that could be handed out. */
  function CheckFree(s: seq<Block>, lo: nat, hi: nat, size: int, total: int, room: int): (int, int)
    decreases |s|
  {
    if s == [] then (total, room)
    else if !CellOk(s[0], lo, hi) then (-1, 0)
    else if |s| > 1 && s[0].End() % WORD >= s[1].at then (-1, 0)
    else if total + Signed(s[0].len) <= 0 || total + Signed(s[0].len) > size then (-1, 0)
    else CheckFree(s[1..], lo, hi, size, total + Signed(s[0].len), room + Signed(s[0].len) - HEADER)
  }

  function Check(h: Heap, lo: nat, hi: nat): int {
    if !h.Live() then -1 else
    var t := CheckUsed(h.used, lo, hi, h.size, 0);
    if t == -1 then -1 else
    var (total, room) := CheckFree(h.free, lo, hi, h.size, t, 0);
    if total != h.size then -1 else room
  }

  lemma TotalHead(s: seq<Block>)
    requires s != []
    ensures Total(s) == s[0].len + Total(s[1..])
  {
    assert s == [] + [s[0]] + s[1..];
    TotalParts([], s[0], s[1..]);
  }

  ghost predicate AllOk(s: seq<Block>, lo: nat, hi: nat) {
    forall i :: 0 <= i < |s| ==> CellOk(s[i], lo, hi)
  }

  /** Each free cell ends below the next. */
  ghost predicate Gaps(s: seq<Block>) {
    forall i, j :: 0 <= i && j == i + 1 < |s| ==> s[i].End() % WORD < s[j].at
  }

  ghost predicate Words(s: seq<Block>) {
    forall i :: 0 <= i < |s| ==> s[i].len < WORD
  }

  lemma {:induction false} CheckUsedIff(s: seq<Block>, lo: nat, hi: nat, size: int, total: int)
    requires Words(s) && total >= 0
    ensures CheckUsed(s, lo, hi, size, total) ==
      if AllOk(s, lo, hi) && (s == [] || total + Total(s) <= size) then total + Total(s) else -1
    decreases |s|
  {
    if s != [] {
      TotalHead(s);
      if CellOk(s[0], lo, hi) {
        CheckUsedIff(s[1..], lo, hi, size, total + s[0].len);
        assert AllOk(s, lo, hi) <==> AllOk(s[1..], lo, hi) by { assert s == [s[0]] + s[1..]; }
      }
    }
  }

  lemma {:induction false} CheckFreeIff(s: seq<Block>, lo: nat, hi: nat, size: int, total: int, room: int)
    requires Words(s) && total >= 0
    ensures CheckFree(s, lo, hi, size, total, room) ==
      if AllOk(s, lo, hi) && Gaps(s) && (s == [] || total + Total(s) <= size)
      then (total + Total(s), room + Room(s)) else (-1, 0)
    decreases |s|
  {
    if s != [] {
      TotalHead(s);
      if CellOk(s[0], lo, hi) {
        CheckFreeIff(s[1..], lo, hi, size, total + s[0].len, room + s[0].len - HEADER);
        assert s == [s[0]] + s[1..];
        assert AllOk(s, lo, hi) <==> AllOk(s[1..], lo, hi);
        assert Gaps(s) <==> Gaps(s[1..]) && (|s| > 1 ==> s[0].End() % WORD < s[1].at) by { GapsHead(s); }
      }
    }
  }

  lemma GapsHead(s: seq<Block>)
    requires s != []
    ensures Gaps(s) <==> Gaps(s[1..]) && (|s| > 1 ==> s[0].End() % WORD < s[1].at)
  {
    if Gaps(s[1..]) && (|s| > 1 ==> s[0].End() % WORD < s[1].at) {
      forall i, j | 0 <= i && j == i + 1 < |s| ensures s[i].End() % WORD < s[j].at {
        if i > 0 { assert s[1..][i - 1] == s[i] && s[1..][j - 1] == s[j]; }
      }
    }
    if Gaps(s) {
      forall i, j | 0 <= i && j == i + 1 < |s| - 1 ensures s[1..][i].End() % WORD < s[1..][j].at {
        assert s[1..][i] == s[i + 1] && s[1..][j] == s[j + 1];
      }
    }
  }

  /** The check accepts exactly the heaps whose cells are well-formed, whose free list is sorted with gaps, and whose
      cells make up its whole size; it then reports the bytes that could be handed out. */
  lemma CheckIff(h: Heap, lo: nat, hi: nat)
    requires Words(h.used) && Words(h.free)
    ensures Check(h, lo, hi) ==
      if h.Live() && AllOk(h.used, lo, hi) && AllOk(h.free, lo, hi) && Gaps(h.free)
        && Total(h.used) + Total(h.free) == h.size
      then Room(h.free) else -1
  {
    if h.Live() {
      CheckUsedIff(h.used, lo, hi, h.size, 0);
      if CheckUsed(h.used, lo, hi, h.size, 0) != -1 {
        CheckFreeIff(h.free, lo, hi, h.size, Total(h.used), 0);
      }
    }
  }

  lemma CellIsOk(h: Heap, s: seq<Block>, i: nat, lo: nat, hi: nat)
    requires GoodHeap(h) && (s == h.free || s == h.used) && i < |s| && forall x :: Owns(h, x) ==> lo <= x < hi
    ensures CellOk(s[i], lo, hi) && s[i].len < WORD
  {
    TotalAt(s, i);
    assert Cell(s[i]);
    assert s[i].Holds(s[i].at);
    assert Owns(h, s[i].at);
  }

  /** A good heap is never rejected. */
  lemma CheckGood(h: Heap, lo: nat, hi: nat)
    requires GoodHeap(h) && forall x :: Owns(h, x) ==> lo <= x < hi
    ensures Check(h, lo, hi) == Room(h.free) >= 0
  {
    forall i | 0 <= i < |h.used| ensures CellOk(h.used[i], lo, hi) && h.used[i].len < WORD {
      CellIsOk(h, h.used, i, lo, hi);
    }
    forall i | 0 <= i < |h.free| ensures CellOk(h.free[i], lo, hi) && h.free[i].len < WORD {
      CellIsOk(h, h.free, i, lo, hi);
    }
    CheckIff(h, lo, hi);
    RoomPositive(h.free);
  }

  lemma {:induction false} RoomPositive(s: seq<Block>)
    requires Cells(s)
    ensures Room(s) >= 0
  {
    if s != [] { RoomPositive(s[..|s| - 1]); }
  }
}
