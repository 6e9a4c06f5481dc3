/** All the heaps of the arena, and what holds after any run of calls. */
module HeapRuns {
  import opened Blocks
  import opened HeapOps

  /** The arena, its heap descriptors, and the current heap. */
  datatype World = World(lo: nat, hi: nat, heaps: seq<Heap>, cur: int)

  const NO_HEAP: Heap := Heap(-1, [], [])

  function InitAlloc(lo: nat, hi: nat, maxHeaps: nat): World {
    World(RoundUp(lo + 12 * maxHeaps), RoundDown(hi), seq(maxHeaps, _ => NO_HEAP), -1)
  }

  predicate Usable(w: World, i: int) { 0 <= i < |w.heaps| && w.heaps[i].Live() }

  /** The first descriptor not in use. */
  function FirstDead(s: seq<Heap>): (i: nat)
    ensures i <= |s|
    ensures forall j :: 0 <= j < i ==> s[j].Live()
    ensures i < |s| ==> !s[i].Live()
  {
    if s == [] || !s[0].Live() then 0 else 1 + FirstDead(s[1..])
  }

  /** The 32-byte aligned part of a range. */
  function Aligned(start: nat, end: nat): Block {
    Block(RoundUp(start), (RoundDown(end) - RoundUp(start)) % WORD)
  }

  function CreateHeap(w: World, start: nat, end: nat): (World, int) {
    var i, b := FirstDead(w.heaps), Aligned(start, end);
    if i == |w.heaps| then (w, -1) else (w.(heaps := w.heaps[i := Heap(Signed(b.len), [b], [])]), i as int)
  }

  function DestroyHeap(w: World, i: int): World {
    if 0 <= i < |w.heaps| then w.(heaps := w.heaps[i := NO_HEAP]) else w
  }

  function AddToHeap(w: World, i: int, start: nat, end: nat): World {
    if !Usable(w, i) then w else w.(heaps := w.heaps[i := AddRange(w.heaps[i], Aligned(start, end))])
  }

  function AllocFromHeap(w: World, i: int, size: nat): (World, nat) {
    if !Usable(w, i) then (w, 0) else
    var (h, ptr) := Alloc(w.heaps[i], size);
    (w.(heaps := w.heaps[i := h]), ptr)
  }

  /** A pointer that may be freed: null, or data of an allocated cell. */
  predicate MayFree(w: World, i: int, ptr: nat) {
    ptr != 0 && Usable(w, i) ==> Find(w.heaps[i].used, ptr - HEADER) < |w.heaps[i].used|
  }

  function FreeToHeap(w: World, i: int, ptr: nat): World
    requires MayFree(w, i, ptr)
  {
    if ptr == 0 || !Usable(w, i) then w else w.(heaps := w.heaps[i := Free(w.heaps[i], ptr)])
  }

  function CheckHeap(w: World, i: int): int {
    if !Usable(w, i) then -1 else Check(w.heaps[i], w.lo, w.hi)
  }

  // ----- the invariant

  ghost predicate HeapOk(w: World, i: nat)
    requires i < |w.heaps|
  {
    w.heaps[i].Live() ==> GoodHeap(w.heaps[i]) && forall x :: Owns(w.heaps[i], x) ==> w.lo <= x < w.hi
  }

  /** Heaps `i` and `j` share no byte. */
  ghost predicate Disjoint(w: World, i: nat, j: nat)
    requires i < |w.heaps| && j < |w.heaps|
  {
    i != j && w.heaps[i].Live() && w.heaps[j].Live() ==> forall x :: !(Owns(w.heaps[i], x) && Owns(w.heaps[j], x))
  }

  ghost predicate GoodWorld(w: World) {
    && 0 < w.lo && w.hi < WORD
    && (forall i :: 0 <= i < |w.heaps| ==> HeapOk(w, i))
    && (forall i, j :: 0 <= i < |w.heaps| && 0 <= j < |w.heaps| ==> Disjoint(w, i, j))
  }

  /** A range that a heap may be given: within the arena, long enough, and in no live heap. */
  ghost predicate FreshRange(w: World, b: Block, max: int) {
    && MIN_OBJECT <= b.len <= max && w.lo <= b.at && b.End() <= w.hi
    && forall i, x :: 0 <= i < |w.heaps| && w.heaps[i].Live() && Owns(w.heaps[i], x) ==> !b.Holds(x)
  }

  datatype Call =
    | CreateHeapCall(start: nat, end: nat)
    | DestroyHeapCall(i: int)
    | AddToHeapCall(i: int, start: nat, end: nat)
    | AllocCall(i: int, size: nat)
    | FreeCall(i: int, ptr: nat)
    | SetCurrentCall(i: int)

  /** When a call may be made: ranges are at least 0x40 bytes and new, freed pointers are live, and requests are not
      among the last sizes below 2 GB. */
  ghost predicate Enabled(w: World, c: Call) {
    match c
    case CreateHeapCall(start, end) => FirstDead(w.heaps) < |w.heaps| ==>
      FreshRange(w, Aligned(start, end), 0x7FFF_FFE0)
    case DestroyHeapCall(_) => true
    case AddToHeapCall(i, start, end) => Usable(w, i) ==>
      FreshRange(w, Aligned(start, end), 0x7FFF_FFE0 - w.heaps[i].size)
    case AllocCall(i, size) => size < WORD && !(MAX_REQUEST < size <= 0x7FFF_FFFF)
    case FreeCall(i, ptr) => MayFree(w, i, ptr)
    case SetCurrentCall(_) => true
  }

  function Step(w: World, c: Call): World
    requires c.FreeCall? ==> MayFree(w, c.i, c.ptr)
  {
    match c
    case CreateHeapCall(start, end) => CreateHeap(w, start, end).0
    case DestroyHeapCall(i) => DestroyHeap(w, i)
    case AddToHeapCall(i, start, end) => AddToHeap(w, i, start, end)
    case AllocCall(i, size) => AllocFromHeap(w, i, size).0
    case FreeCall(i, ptr) => FreeToHeap(w, i, ptr)
    case SetCurrentCall(i) => w.(cur := i)
  }

  ghost predicate Allowed(w: World, calls: seq<Call>)
    decreases |calls|
  {
    calls != [] ==> Enabled(w, calls[0]) && Allowed(Step(w, calls[0]), calls[1..])
  }

  ghost function Run(w: World, calls: seq<Call>): World
    requires Allowed(w, calls)
    decreases |calls|
  {
    if calls == [] then w else Run(Step(w, calls[0]), calls[1..])
  }

  /** Changing one heap within bytes that no other live heap owns keeps the world good. */
  lemma PutHeap(w: World, i: nat, h: Heap)
    requires GoodWorld(w) && i < |w.heaps|
    requires h.Live() ==> GoodHeap(h)
    requires forall x :: h.Live() && Owns(h, x) ==> w.lo <= x < w.hi
    requires forall j, x :: 0 <= j < |w.heaps| && j != i && h.Live() && Owns(h, x) && w.heaps[j].Live() ==>
      !Owns(w.heaps[j], x)
    ensures GoodWorld(w.(heaps := w.heaps[i := h]))
  {
    var w' := w.(heaps := w.heaps[i := h]);
    forall j | 0 <= j < |w'.heaps| ensures HeapOk(w', j) { assert HeapOk(w, j); }
    forall j, k | 0 <= j < |w'.heaps| && 0 <= k < |w'.heaps| ensures Disjoint(w', j, k) { assert Disjoint(w, j, k); }
  }

  /** A heap that owns no new bytes disturbs nobody. */
  lemma ShrinkHeap(w: World, i: nat, h: Heap)
    requires GoodWorld(w) && i < |w.heaps| && w.heaps[i].Live() && GoodHeap(h)
    requires forall x :: Owns(h, x) ==> Owns(w.heaps[i], x)
    ensures GoodWorld(w.(heaps := w.heaps[i := h]))
  {
    assert HeapOk(w, i);
    forall j, x | 0 <= j < |w.heaps| && j != i && Owns(h, x) && w.heaps[j].Live() ensures !Owns(w.heaps[j], x) {
      assert Disjoint(w, i, j);
    }
    PutHeap(w, i, h);
  }

  lemma AlignedCell(w: World, start: nat, end: nat, max: int)
    requires GoodWorld(w) && FreshRange(w, Aligned(start, end), max) && max < 0x8000_0000
    ensures var b := Aligned(start, end); Cell(b) && Signed(b.len) == b.len
  {
  }

  lemma CreateGood(w: World, start: nat, end: nat)
    requires GoodWorld(w) && Enabled(w, CreateHeapCall(start, end))
    ensures GoodWorld(CreateHeap(w, start, end).0)
  {
    var i, b := FirstDead(w.heaps), Aligned(start, end);
    if i < |w.heaps| {
      AlignedCell(w, start, end, 0x7FFF_FFE0);
      var h := Heap(b.len, [b], []);
      assert Total([b]) == b.len by { assert [b][..0] == []; }
      forall x ensures Owns(h, x) <==> b.Holds(x) { CoversOne(b, x); }
      PutHeap(w, i, h);
    }
  }

  lemma ClearOf(s: seq<Block>, b: Block)
    requires b.len > 0 && (forall i :: 0 <= i < |s| ==> s[i].len > 0) && forall x :: b.Holds(x) ==> !Covers(s, x)
    ensures Clear(s, b)
  {
    forall i | 0 <= i < |s| ensures Apart(s[i], b) {
      var x := if b.at <= s[i].at then s[i].at else b.at;
      if s[i].Holds(x) { assert Covers(s, x); }
    }
  }

  lemma AddGood(w: World, i: int, start: nat, end: nat)
    requires GoodWorld(w) && Enabled(w, AddToHeapCall(i, start, end))
    ensures GoodWorld(AddToHeap(w, i, start, end))
  {
    if Usable(w, i) {
      var h, b := w.heaps[i], Aligned(start, end);
      assert HeapOk(w, i);
      AlignedCell(w, start, end, 0x7FFF_FFE0 - h.size);
      assert forall x :: Owns(h, x) ==> !b.Holds(x);
      ClearOf(h.free, b);
      ClearOf(h.used, b);
      AddRangeGood(h, b);
      forall j, x | 0 <= j < |w.heaps| && j != i && Owns(AddRange(h, b), x) && w.heaps[j].Live()
        ensures !Owns(w.heaps[j], x)
      {
        assert Disjoint(w, i, j);
      }
      PutHeap(w, i, AddRange(h, b));
    }
  }

  lemma AllocKeeps(w: World, i: int, size: nat)
    requires GoodWorld(w) && Enabled(w, AllocCall(i, size))
    ensures GoodWorld(AllocFromHeap(w, i, size).0)
  {
    if Usable(w, i) {
      var h := w.heaps[i];
      assert HeapOk(w, i);
      var (h', ptr) := Alloc(h, size);
      if size <= MAX_REQUEST { AllocGood(h, size); }
      if ptr != 0 { AllocGrants(h, size); }
      forall x ensures Owns(h', x) ==> Owns(h, x) {
        if ptr != 0 {
          assert h'.used == [h'.used[0]] + h'.used[1..];
          CoversAppend([h'.used[0]], h'.used[1..], x);
          CoversOne(h'.used[0], x);
        }
      }
      ShrinkHeap(w, i, h');
    }
  }

  lemma FreeKeeps(w: World, i: int, ptr: nat)
    requires GoodWorld(w) && MayFree(w, i, ptr)
    ensures GoodWorld(FreeToHeap(w, i, ptr))
  {
    if ptr != 0 && Usable(w, i) {
      var h := w.heaps[i];
      var j := Find(h.used, ptr - HEADER);
      assert HeapOk(w, i);
      ReleaseGood(h, j);
      forall x ensures Owns(Release(h, j), x) ==> Owns(h, x) { ReleaseBytes(h, j, x); }
      ShrinkHeap(w, i, Release(h, j));
    }
  }

  lemma StepGood(w: World, c: Call)
    requires GoodWorld(w) && Enabled(w, c)
    ensures GoodWorld(Step(w, c))
  {
    match c
    case CreateHeapCall(start, end) => CreateGood(w, start, end);
    case DestroyHeapCall(i) => if 0 <= i < |w.heaps| { PutHeap(w, i, NO_HEAP); }
    case AddToHeapCall(i, start, end) => AddGood(w, i, start, end);
    case AllocCall(i, size) => AllocKeeps(w, i, size);
    case FreeCall(i, ptr) => FreeKeeps(w, i, ptr);
    case SetCurrentCall(i) =>
      forall j | 0 <= j < |w.heaps| ensures HeapOk(w.(cur := i), j) { assert HeapOk(w, j); }
      forall j, k | 0 <= j < |w.heaps| && 0 <= k < |w.heaps| ensures Disjoint(w.(cur := i), j, k) {
        assert Disjoint(w, j, k);
      }
  }

  lemma {:induction false} RunGood(w: World, calls: seq<Call>)
    requires GoodWorld(w) && Allowed(w, calls)
    ensures GoodWorld(Run(w, calls)) && Run(w, calls).lo == w.lo && Run(w, calls).hi == w.hi
    decreases |calls|
  {
    if calls != [] {
      StepGood(w, calls[0]);
      assert Step(w, calls[0]).lo == w.lo && Step(w, calls[0]).hi == w.hi;
      RunGood(Step(w, calls[0]), calls[1..]);
    }
  }

  /** After any run from start-up every live heap has a canonical free list, disjoint from its cells and from the other
      heaps, and the check reports exactly what it could still hand out. */
  lemma HeapsStaySound(lo: nat, hi: nat, n: nat, calls: seq<Call>, i: nat, j: nat)
    requires 0 < lo && lo + 12 * n + 31 < WORD && hi < WORD
    requires Allowed(InitAlloc(lo, hi, n), calls)
    ensures var w := Run(InitAlloc(lo, hi, n), calls);
      && (Usable(w, i) ==>
          && Canon(w.heaps[i].free)
          && (forall x :: !(Covers(w.heaps[i].free, x) && Covers(w.heaps[i].used, x)))
          && CheckHeap(w, i) == Room(w.heaps[i].free) != -1)
      && (Usable(w, i) && Usable(w, j) && i != j ==> forall x :: !(Owns(w.heaps[i], x) && Owns(w.heaps[j], x)))
  {
    var w0 := InitAlloc(lo, hi, n);
    assert GoodWorld(w0);
    RunGood(w0, calls);
    var w := Run(w0, calls);
    if Usable(w, i) {
      assert HeapOk(w, i);
      CheckGood(w.heaps[i], w.lo, w.hi);
      if Usable(w, j) { assert Disjoint(w, i, j); }
    }
  }

  /** The free list depends only on which bytes are free: two runs that leave the same bytes free in heap `i` leave the
      same list. */
  lemma RunsAgree(w0: World, calls: seq<Call>, v0: World, calls': seq<Call>, i: nat)
    requires GoodWorld(w0) && GoodWorld(v0) && Allowed(w0, calls) && Allowed(v0, calls')
    requires Usable(Run(w0, calls), i) && Usable(Run(v0, calls'), i)
    requires forall x :: Covers(Run(w0, calls).heaps[i].free, x) <==> Covers(Run(v0, calls').heaps[i].free, x)
    ensures Run(w0, calls).heaps[i].free == Run(v0, calls').heaps[i].free
    ensures CheckHeap(Run(w0, calls), i) == CheckHeap(Run(v0, calls'), i)
  {
    RunGood(w0, calls);
    RunGood(v0, calls');
    var w, v := Run(w0, calls), Run(v0, calls');
    assert HeapOk(w, i) && HeapOk(v, i);
    CanonUnique(w.heaps[i].free, v.heaps[i].free);
    CheckGood(w.heaps[i], w.lo, w.hi);
    CheckGood(v.heaps[i], v.lo, v.hi);
  }
}
