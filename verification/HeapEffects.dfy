/** What each heap call does for its caller, byte by byte: which bytes become free or allocated in the heap that is
    named, and that no other heap changes. */
module HeapEffects {
  import opened Blocks
  import opened HeapOps
  import opened HeapRuns

  // ----- one heap

  lemma FoundAt(s: seq<Block>, j: nat)
    requires Scattered(s) && Cells(s) && j < |s|
    ensures Find(s, s[j].at) == j
  {
    forall k | 0 <= k < j ensures s[k].at != s[j].at { assert Apart(s[k], s[j]) && Cell(s[k]) && Cell(s[j]); }
  }

  /** Freeing the pointer to a cell makes the bytes of that cell free and no others; the other cells stay allocated, in
      their order. */
  lemma FreePointer(h: Heap, j: nat, ptr: nat)
    requires GoodHeap(h) && j < |h.used| && h.used[j].at + 0x20 == ptr
    ensures Find(h.used, ptr - HEADER) < |h.used|
    ensures var h' := Free(h, ptr);
      && h'.size == h.size && h'.used == h.used[..j] + h.used[j + 1..]
      && forall x :: Covers(h'.free, x) <==> Covers(h.free, x) || h.used[j].Holds(x)
  {
    FoundAt(h.used, j);
    forall x ensures Covers(Release(h, j).free, x) <==> Covers(h.free, x) || h.used[j].Holds(x) {
      ReleaseBytes(h, j, x);
    }
  }

  lemma Whole32(len: int, size: int)
    requires len % 32 == 0 && 0 < size <= MAX_REQUEST
    ensures len < Required(size) <==> len < size + 0x20
  {
  }

  lemma TooSmall(s: seq<Block>, size: nat)
    requires Cells(s) && 0 < size <= MAX_REQUEST
    ensures forall j :: 0 <= j < |s| ==> (s[j].len < Required(size) <==> s[j].len < size + 0x20)
  {
    forall j | 0 <= j < |s| ensures s[j].len < Required(size) <==> s[j].len < size + 0x20 {
      assert Cell(s[j]);
      Whole32(s[j].len, size);
    }
  }

  /** An allocation gives nothing just when the request is empty or no free cell has room for it and a header. */
  lemma AllocNothing(h: Heap, size: nat)
    requires GoodHeap(h) && size <= MAX_REQUEST
    ensures Alloc(h, size).1 == 0 <==> size == 0 || forall j :: 0 <= j < |h.free| ==> h.free[j].len < size + 0x20
    ensures Alloc(h, size).1 == 0 ==> Alloc(h, size).0 == h
  {
    AllocGood(h, size);
    if size > 0 { TooSmall(h.free, size); }
    hide Alloc, Required, GoodHeap;
  }

  lemma FreeCell(h: Heap, i: nat)
    requires GoodHeap(h) && i < |h.free|
    ensures (h.free[i].at + HEADER) % 32 == 0
  {
    assert Cell(h.free[i]);
  }

  lemma AllocAligned(h: Heap, size: nat)
    requires GoodHeap(h) && size <= MAX_REQUEST && Alloc(h, size).1 != 0
    ensures Alloc(h, size).1 % 32 == 0 && size > 0
  {
    if size > 0 {
      hide GoodHeap, Required, Grant, FirstFit;
      AllocPicks(h, size);
      FreeCell(h, FirstFit(h.free, Required(size)));
    }
  }

  lemma AllocLowest(h: Heap, size: nat)
    requires GoodHeap(h) && 0 < size <= MAX_REQUEST && Alloc(h, size).1 != 0
    ensures var u := Alloc(h, size).0.used;
      u != [] && forall j :: 0 <= j < |h.free| && h.free[j].at < u[0].at ==> h.free[j].len < size + 0x20
  {
    TooSmall(h.free, size);
    hide *;
    AllocGrants(h, size);
  }

  /** The caller of an allocation got the data of a cell of `h'` that `h` did not have: at least `size` bytes behind its
      header and at most 0x3F more, all free before, and at the lowest address where there was room. */
  ghost predicate GotCell(h: Heap, h': Heap, size: nat, ptr: nat) {
    && h'.size == h.size && h'.used != [] && h'.used[1..] == h.used
    && var g := h'.used[0];
    && g.at + 0x20 == ptr && ptr % 32 == 0 && size + 0x20 <= g.len <= size + 0x5F
    && (forall x :: g.Holds(x) ==> Covers(h.free, x))
    && (forall x :: Covers(h'.free, x) <==> Covers(h.free, x) && !g.Holds(x))
    && (forall j :: 0 <= j < |h.free| && h.free[j].at < g.at ==> h.free[j].len < size + 0x20)
  }

  /** Else the caller gets the data of a new cell, at the lowest address where one fits, out of bytes that were free. */
  lemma AllocPointer(h: Heap, size: nat)
    requires GoodHeap(h) && size <= MAX_REQUEST && Alloc(h, size).1 != 0
    ensures GotCell(h, Alloc(h, size).0, size, Alloc(h, size).1)
  {
    assert HEADER == 0x20;
    hide Alloc, Covers, GoodHeap, Required;
    AllocGood(h, size);
    AllocAligned(h, size);
    AllocLowest(h, size);
    AllocGrants(h, size);
  }

  // ----- the named heap, and no other

  /** At most heap `i` differs. */
  ghost predicate OnlyHeap(w: World, w': World, i: int) {
    && w'.lo == w.lo && w'.hi == w.hi && w'.cur == w.cur && |w'.heaps| == |w.heaps|
    && forall j :: 0 <= j < |w.heaps| && j != i ==> w'.heaps[j] == w.heaps[j]
  }

  /** A pointer that the caller got from heap `i` is freed there. */
  lemma FreeEffect(w: World, i: int, j: nat, ptr: nat)
    requires GoodWorld(w) && Usable(w, i) && j < |w.heaps[i].used| && w.heaps[i].used[j].at + 0x20 == ptr
    ensures MayFree(w, i, ptr)
    ensures var w', h := FreeToHeap(w, i, ptr), w.heaps[i];
      && OnlyHeap(w, w', i) && Usable(w', i)
      && w'.heaps[i].used == h.used[..j] + h.used[j + 1..]
      && forall x :: Covers(w'.heaps[i].free, x) <==> Covers(h.free, x) || h.used[j].Holds(x)
  {
    assert HeapOk(w, i);
    FreePointer(w.heaps[i], j, ptr);
    hide Free, Find, GoodHeap;
  }

  /** Freeing a null pointer, or to a heap that is not in use, does nothing. */
  lemma FreeNothing(w: World, i: int, ptr: nat)
    requires ptr == 0 || i < 0 || i >= |w.heaps| || w.heaps[i].size < 0
    ensures MayFree(w, i, ptr) && FreeToHeap(w, i, ptr) == w
  {
  }

  lemma AllocAs(w: World, i: int, size: nat)
    requires Usable(w, i)
    ensures var (w', ptr), (h', p) := AllocFromHeap(w, i, size), Alloc(w.heaps[i], size);
      ptr == p && w'.heaps == w.heaps[i := h'] && OnlyHeap(w, w', i)
  {
    hide Alloc;
  }

  /** An allocation touches the named heap only. It gives nothing, and changes nothing, just when that heap is not in
      use, or the request is empty, or no free cell has room; else the caller gets a cell there. */
  lemma AllocEffect(w: World, i: int, size: nat)
    requires GoodWorld(w) && size <= MAX_REQUEST
    ensures var (w', ptr) := AllocFromHeap(w, i, size);
      && OnlyHeap(w, w', i) && (ptr == 0 ==> w' == w)
      && (ptr == 0 <==> i < 0 || i >= |w.heaps| || w.heaps[i].size < 0 || size == 0
                        || forall j :: 0 <= j < |w.heaps[i].free| ==> w.heaps[i].free[j].len < size + 0x20)
      && (ptr != 0 ==> GotCell(w.heaps[i], w'.heaps[i], size, ptr))
  {
    if Usable(w, i) {
      assert HeapOk(w, i);
      AllocAs(w, i, size);
      hide Alloc, AllocFromHeap, GoodHeap, GotCell;
      AllocNothing(w.heaps[i], size);
      if Alloc(w.heaps[i], size).1 != 0 { AllocPointer(w.heaps[i], size); }
      assert w.heaps[i := w.heaps[i]] == w.heaps;
    }
  }

  // ----- heaps made, widened and destroyed

  /** Byte `x` lies in a unit of 32 aligned bytes that lies in the range. */
  predicate InUnits(start: int, end: int, x: int) {
    start <= x / 32 * 32 && x / 32 * 32 + 32 <= end
  }

  lemma UnitsAre(start: nat, end: nat, x: int)
    requires end < WORD && Aligned(start, end).len <= 0x7FFF_FFE0 && Aligned(start, end).End() < WORD
    requires start < WORD - 31 && 0 < Aligned(start, end).len
    ensures Aligned(start, end).Holds(x) <==> InUnits(start, end, x)
  {
    var s, e := (start + 31) / 32, end / 32;
    assert Aligned(start, end).at == 32 * s && RoundDown(end) == 32 * e;
    var k := (32 * e - 32 * s) % WORD;
    assert Aligned(start, end).len == k;
    NoWrap(32 * e - 32 * s, 32 * s);
    Units(s, e, start, end, x);
  }

  lemma NoWrap(d: int, at: nat)
    requires -WORD < d < WORD && at + d < WORD && at + d % WORD < WORD && 0 <= at + d
    ensures d % WORD == d
  {
    assert d % WORD == if d < 0 then d + WORD else d;
  }

  lemma Units(s: int, e: int, start: int, end: int, x: int)
    requires 32 * s - 31 <= start <= 32 * s && 32 * e <= end < 32 * e + 32
    ensures 32 * s <= x < 32 * e <==> InUnits(start, end, x)
  {
    var q := x / 32;
    assert 32 * q <= x < 32 * q + 32;
  }

  /** A range is added to the heap that is named: the whole 32-byte units in it become free. */
  lemma AddEffect(w: World, i: int, start: nat, end: nat)
    requires GoodWorld(w) && Usable(w, i) && Enabled(w, AddToHeapCall(i, start, end))
    requires start < WORD - 31 && end < WORD
    ensures var w', h := AddToHeap(w, i, start, end), w.heaps[i];
      && OnlyHeap(w, w', i) && Usable(w', i) && w'.heaps[i].used == h.used
      && forall x :: Covers(w'.heaps[i].free, x) <==> Covers(h.free, x) || InUnits(start, end, x)
  {
    var h, b := w.heaps[i], Aligned(start, end);
    assert HeapOk(w, i);
    AlignedCell(w, start, end, 0x7FFF_FFE0 - h.size);
    forall x ensures Covers(Join(h.free, b), x) <==> Covers(h.free, x) || InUnits(start, end, x) {
      JoinCovers(h.free, b, x);
      UnitsAre(start, end, x);
    }
    hide Join, Aligned;
  }

  /** A heap is made under the first descriptor not in use: nothing is allocated in it, and the whole 32-byte units of
      the range are free. Without such a descriptor the answer is -1. */
  lemma CreateEffect(w: World, start: nat, end: nat)
    requires GoodWorld(w) && Enabled(w, CreateHeapCall(start, end)) && start < WORD - 31 && end < WORD
    ensures var (w', i) := CreateHeap(w, start, end);
      && OnlyHeap(w, w', i)
      && (i == -1 <==> forall j :: 0 <= j < |w.heaps| ==> w.heaps[j].size >= 0)
      && (i == -1 ==> w' == w)
      && (i != -1 ==>
          && 0 <= i < |w.heaps| && w.heaps[i].size < 0 && (forall j :: 0 <= j < i ==> w.heaps[j].size >= 0)
          && Usable(w', i) && w'.heaps[i].used == []
          && forall x :: Covers(w'.heaps[i].free, x) <==> InUnits(start, end, x))
  {
    var i, b := FirstDead(w.heaps), Aligned(start, end);
    if i < |w.heaps| {
      AlignedCell(w, start, end, 0x7FFF_FFE0);
      forall x ensures Covers([b], x) <==> InUnits(start, end, x) {
        CoversOne(b, x);
        UnitsAre(start, end, x);
      }
      hide Aligned;
    }
  }

  /** A destroyed heap is no longer in use, so that its descriptor can be given out again. */
  lemma DestroyEffect(w: World, i: int)
    requires 0 <= i < |w.heaps|
    ensures OnlyHeap(w, DestroyHeap(w, i), i) && !Usable(DestroyHeap(w, i), i)
    ensures forall start, end :: (forall j :: 0 <= j < i ==> w.heaps[j].size >= 0) ==>
      CreateHeap(DestroyHeap(w, i), start, end).1 == i
  {
  }

  /** The arena after set-up: the descriptors, 12 bytes each, come first; no heap is in use. */
  lemma InitEffect(lo: nat, hi: nat, n: nat)
    requires lo + 12 * n + 31 < WORD
    ensures var w := InitAlloc(lo, hi, n);
      && w.lo % 32 == 0 && lo + 12 * n <= w.lo < lo + 12 * n + 32 && w.hi % 32 == 0 && hi - 32 < w.hi <= hi
      && |w.heaps| == n && (forall i :: 0 <= i < n ==> w.heaps[i].size < 0) && w.cur == -1
  {
  }

  // ----- what a caller holds, it keeps

  lemma FreeElsewhere(h: Heap, ptr: nat, b: Block)
    requires GoodHeap(h) && b in h.used && ptr != 0 && Find(h.used, ptr - HEADER) < |h.used| && b.at + 0x20 != ptr
    ensures b in Free(h, ptr).used
  {
    var j := Find(h.used, ptr - HEADER);
    var k :| 0 <= k < |h.used| && h.used[k] == b;
    FreePointer(h, j, ptr);
    var u := h.used[..j] + h.used[j + 1..];
    assert u[if k < j then k else k - 1] == b;
  }

  lemma AllocElsewhere(h: Heap, size: nat, b: Block)
    requires GoodHeap(h) && size <= MAX_REQUEST && b in h.used
    ensures b in Alloc(h, size).0.used && Alloc(h, size).0.Live()
  {
    var h' := Alloc(h, size).0;
    AllocNothing(h, size);
    if Alloc(h, size).1 != 0 {
      AllocPointer(h, size);
      hide Alloc, GoodHeap, Covers;
      assert h'.used == [h'.used[0]] + h'.used[1..];
    }
  }

  lemma OtherHeapStays(w: World, w': World, k: int, i: int)
    requires OnlyHeap(w, w', k) && Usable(w, i) && i != k
    ensures Usable(w', i) && w'.heaps[i] == w.heaps[i]
  {
  }

  lemma NamedHeap(w: World, c: Call) returns (k: int)
    requires c.FreeCall? ==> MayFree(w, c.i, c.ptr)
    ensures !c.SetCurrentCall? ==> OnlyHeap(w, Step(w, c), k)
    ensures !c.SetCurrentCall? && !c.CreateHeapCall? ==> k == c.i
    ensures c.CreateHeapCall? ==> k == FirstDead(w.heaps)
  {
    k := if c.SetCurrentCall? then 0 else if c.CreateHeapCall? then FirstDead(w.heaps) else c.i;
    hide Alloc, Free, Aligned, AddRange, Find;
  }

  lemma StepHolds(w: World, c: Call, i: int, b: Block)
    requires GoodWorld(w) && Enabled(w, c) && Usable(w, i) && b in w.heaps[i].used
    requires c != FreeCall(i, b.at + 0x20) && c != DestroyHeapCall(i)
    ensures Usable(Step(w, c), i) && b in Step(w, c).heaps[i].used
  {
    assert HeapOk(w, i);
    var k := NamedHeap(w, c);
    hide GoodHeap, Alloc, Free, Aligned, Find;
    match c
    case CreateHeapCall(_, _) => OtherHeapStays(w, Step(w, c), k, i);
    case DestroyHeapCall(_) => OtherHeapStays(w, Step(w, c), k, i);
    case AddToHeapCall(_, _, _) => if k != i { OtherHeapStays(w, Step(w, c), k, i); }
    case AllocCall(_, size) =>
      if k != i {
        OtherHeapStays(w, Step(w, c), k, i);
      } else if size <= MAX_REQUEST {
        AllocElsewhere(w.heaps[i], size, b);
      } else {
        AllocRefused(w.heaps[i], size);
      }
    case FreeCall(_, ptr) =>
      if k != i {
        OtherHeapStays(w, Step(w, c), k, i);
      } else if ptr != 0 {
        FreeElsewhere(w.heaps[i], ptr, b);
        FreeSize(w.heaps[i], ptr);
      }
    case SetCurrentCall(_) =>
  }

  lemma AllocRefused(h: Heap, size: nat)
    requires 0x8000_0000 <= size < WORD
    ensures Alloc(h, size) == (h, 0)
  {
  }

  lemma FreeSize(h: Heap, ptr: nat)
    requires ptr != 0 && h.Live() ==> Find(h.used, ptr - HEADER) < |h.used|
    ensures Free(h, ptr).size == h.size
  {
  }

  /** A cell that is allocated stays so, through any run of calls, until its own pointer is freed or its heap destroyed;
      and all the while no other cell and no free cell of any heap overlaps it. */
  lemma {:induction false} CellStays(w: World, calls: seq<Call>, i: int, b: Block)
    requires GoodWorld(w) && Allowed(w, calls) && Usable(w, i) && b in w.heaps[i].used
    requires FreeCall(i, b.at + 0x20) !in calls && DestroyHeapCall(i) !in calls
    ensures var w' := Run(w, calls);
      && Usable(w', i) && b in w'.heaps[i].used
      && (forall c :: c in w'.heaps[i].used && c != b ==> Apart(b, c))
      && (forall x :: b.Holds(x) ==> !Covers(w'.heaps[i].free, x))
      && (forall k, x :: Usable(w', k) && k != i && b.Holds(x) ==> !Owns(w'.heaps[k], x))
    decreases |calls|
  {
    if calls != [] {
      StepHolds(w, calls[0], i, b);
      StepGood(w, calls[0]);
      CellStays(Step(w, calls[0]), calls[1..], i, b);
    } else {
      CellAlone(w, i, b);
    }
  }

  lemma CellAlone(w: World, i: int, b: Block)
    requires GoodWorld(w) && Usable(w, i) && b in w.heaps[i].used
    ensures forall c :: c in w.heaps[i].used && c != b ==> Apart(b, c)
    ensures forall x :: b.Holds(x) ==> !Covers(w.heaps[i].free, x)
    ensures forall k, x :: Usable(w, k) && k != i && b.Holds(x) ==> !Owns(w.heaps[k], x)
  {
    assert HeapOk(w, i);
    var h := w.heaps[i];
    var j :| 0 <= j < |h.used| && h.used[j] == b;
    forall c | c in h.used && c != b ensures Apart(b, c) {
      var m :| 0 <= m < |h.used| && h.used[m] == c;
      assert if m < j then Apart(h.used[m], h.used[j]) else Apart(h.used[j], h.used[m]);
    }
    forall x | b.Holds(x) ensures !Covers(h.free, x) && Owns(h, x) {
      assert forall m :: 0 <= m < |h.free| ==> Apart(h.free[m], h.used[j]);
    }
    forall k, x | Usable(w, k) && k != i && b.Holds(x) ensures !Owns(w.heaps[k], x) { assert Disjoint(w, i, k); }
  }
}
