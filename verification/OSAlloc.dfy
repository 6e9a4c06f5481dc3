/** The heap allocator in its own form: descriptors and cells rewritten in place.
    The ghost heaps say what the lists hold; each call is proved to do what `HeapRuns` says. */
module OSAlloc {
  import opened Lists
  import opened Chains
  import opened Blocks
  import opened HeapOps
  import opened HeapRuns
  import opened CellLists
  import opened HeapCheck

  /** A descriptor with its list heads agrees with heap `h`. */
  ghost predicate Describes(m: Ram, h: Heap, size: int, free: nat, used: nat) {
    size == h.size && (h.Live() ==> Listed(m, h.free, free) && Listed(m, h.used, used))
  }

  lemma DescribesFrame(m: Ram, m': Ram, h: Heap, size: int, free: nat, used: nat)
    requires Describes(m, h, size, free, used) && (h.Live() ==> GoodHeap(h))
    requires h.Live() ==> forall c: nat :: Owns(h, c) ==> SameCell(m, m', c)
    ensures Describes(m', h, size, free, used)
  {
    if h.Live() {
      forall i | 0 <= i < |h.free| ensures SameCell(m, m', h.free[i].at) { assert h.free[i].Holds(h.free[i].at); }
      forall i | 0 <= i < |h.used| ensures SameCell(m, m', h.used[i].at) { assert h.used[i].Holds(h.used[i].at); }
      ListedFrame(m, m', h.free, free);
      ListedFrame(m, m', h.used, used);
    }
  }

  /** No free cell has the address of an allocated one. */
  lemma FreeOrUsed(h: Heap, c: nat)
    requires GoodHeap(h)
    ensures c in Ats(h.free) ==> c !in Ats(h.used) && Covers(h.free, c)
    ensures c in Ats(h.used) ==> c !in Ats(h.free) && Covers(h.used, c)
  {
    if c in Ats(h.free) {
      var i :| 0 <= i < |h.free| && Ats(h.free)[i] == c;
      assert h.free[i].Holds(c);
      forall j | 0 <= j < |h.used| ensures h.used[j].at != c { assert Apart(h.free[i], h.used[j]); }
    }
    if c in Ats(h.used) {
      var j :| 0 <= j < |h.used| && Ats(h.used)[j] == c;
      assert h.used[j].Holds(c);
      forall i | 0 <= i < |h.free| ensures h.free[i].at != c { assert Apart(h.free[i], h.used[j]); }
    }
  }

  class Allocator {
    const mem: Cells
    var size: seq<int>
    var free: seq<nat>
    var used: seq<nat>
    var arenaStart: nat
    var arenaEnd: nat
    var currHeap: int
    ghost var heaps: seq<Heap>

    ghost function Abs(): World
      reads this
    {
      World(arenaStart, arenaEnd, heaps, currHeap)
    }

    ghost predicate Valid()
      reads this, mem
    {
      && |size| == |free| == |used| == |heaps|
      && forall i :: 0 <= i < |heaps| ==> Describes(mem.Mem(), heaps[i], size[i], free[i], used[i])
    }

    constructor InitAlloc(start: nat, end: nat, maxHeaps: nat)
      ensures Valid() && Abs() == HeapRuns.InitAlloc(start, end, maxHeaps) && fresh(mem)
    {
      mem := new Cells();
      size := seq(maxHeaps, _ => -1);
      free := seq(maxHeaps, _ => 0);
      used := seq(maxHeaps, _ => 0);
      arenaStart := RoundUp(start + 12 * maxHeaps);
      arenaEnd := RoundDown(end);
      currHeap := -1;
      heaps := seq(maxHeaps, _ => NO_HEAP);
    }

    method CreateHeap(start: nat, end: nat) returns (h: int)
      requires Valid() && GoodWorld(Abs()) && Enabled(Abs(), CreateHeapCall(start, end))
      modifies this, mem
      ensures Valid() && (Abs(), h) == HeapRuns.CreateHeap(old(Abs()), start, end)
    {
      var s, e := RoundUp(start), RoundDown(end);
      h := 0;
      while h < |size|
        invariant 0 <= h <= |size| && FirstDead(heaps) == h + FirstDead(heaps[h..])
      {
        assert Describes(mem.Mem(), heaps[h], size[h], free[h], used[h]);
        assert heaps[h..][1..] == heaps[h + 1..];
        if size[h] < 0 {
          CreateAt(h, s, (e - s) % WORD);
          return;
        }
        h := h + 1;
      }
      h := -1;
    }

    /** Writes descriptor `h`. */
    method Redescribe(h: nat, bytes: int, head: nat, front: nat, ghost hp: Heap)
      requires h < |heaps| == |size| == |free| == |used|
      requires forall j :: 0 <= j < |heaps| && j != h ==> Describes(mem.Mem(), heaps[j], size[j], free[j], used[j])
      requires Describes(mem.Mem(), hp, bytes, head, front)
      modifies this
      ensures Valid() && Abs() == old(Abs()).(heaps := old(heaps)[h := hp])
    {
      hide Describes;
      size := size[h := bytes];
      free := free[h := head];
      used := used[h := front];
      heaps := heaps[h := hp];
    }

    method CreateAt(h: nat, s: nat, n: nat)
      requires Valid() && GoodWorld(Abs()) && h < |heaps| && !heaps[h].Live()
        && FreshRange(Abs(), Block(s, n), 0x7FFF_FFE0)
      modifies this, mem
      ensures Valid() && Abs() == old(Abs()).(heaps := old(heaps)[h := Heap(Signed(n), [Block(s, n)], [])])
    {
      mem.prev := mem.prev[s := 0];
      mem.next := mem.next[s := 0];
      mem.size := mem.size[s := n];
      Others(Abs(), h, Block(s, n), old(mem.Mem()), mem.Mem(), size, free, used);
      assert Ats([Block(s, n)]) == [s];
      Redescribe(h, Signed(n), s, 0, Heap(Signed(n), [Block(s, n)], []));
    }

    method DestroyHeap(h: int)
      requires Valid() && GoodWorld(Abs())
      modifies this
      ensures Valid() && Abs() == HeapRuns.DestroyHeap(old(Abs()), h)
    {
      if h < 0 || h >= |size| { return; }
      size := size[h := -1];
      heaps := heaps[h := NO_HEAP];
    }

    method SetCurrentHeap(h: int) returns (was: int)
      requires Valid()
      modifies this
      ensures Valid() && Abs() == old(Abs()).(cur := h) && was == old(currHeap)
    {
      was := currHeap;
      currHeap := h;
    }

    method AllocFromHeap(h: int, n: nat) returns (ptr: nat)
      requires Valid() && GoodWorld(Abs()) && Enabled(Abs(), AllocCall(h, n))
      modifies this, mem
      ensures Valid() && (Abs(), ptr) == HeapRuns.AllocFromHeap(old(Abs()), h, n)
    {
      assert 0 <= h < |heaps| ==> heaps[h := heaps[h]] == heaps;
      if Signed(n) <= 0 { return 0; }
      if h < 0 || h >= |size| { return 0; }
      assert Describes(mem.Mem(), heaps[h], size[h], free[h], used[h]);
      if size[h] < 0 { return 0; }
      var req := RoundUp(n + HEADER);
      AllocMoves(Abs(), h, n);
      var cell := mem.FindFit(free[h], req, heaps[h].free);
      if cell == 0 { return 0; }
      TakeCell(h, cell, req, FirstFit(heaps[h].free, req));
      ptr := cell + HEADER;
    }

    method FreeToHeap(h: int, ptr: nat)
      requires Valid() && GoodWorld(Abs()) && Enabled(Abs(), FreeCall(h, ptr))
      modifies this, mem
      ensures Valid() && Abs() == HeapRuns.FreeToHeap(old(Abs()), h, ptr)
    {
      if ptr == 0 { return; }
      if h < 0 || h >= |size| { return; }
      assert Describes(mem.Mem(), heaps[h], size[h], free[h], used[h]);
      if size[h] < 0 { return; }
      ReturnCell(h, ptr - HEADER, Find(heaps[h].used, ptr - HEADER));
    }

    method ReturnCell(h: nat, cell: nat, ghost j: nat)
      requires Valid() && GoodWorld(Abs()) && Usable(Abs(), h) && j < |heaps[h].used| && heaps[h].used[j].at == cell
      modifies this, mem
      ensures Valid() && Abs() == old(Abs()).(heaps := old(heaps)[h := Release(old(heaps)[h], j)])
    {
      ghost var hp, m := heaps[h], mem.Mem();
      assert HeapOk(Abs(), h) && Describes(m, hp, size[h], free[h], used[h]);
      var head, front := UnmoveCell(cell, free[h], used[h], hp, j);
      hide Listed, GoodHeap, Release;
      Others(Abs(), h, Block(0, 0), m, mem.Mem(), size, free, used);
      Redescribe(h, size[h], head, front, Release(hp, j));
    }

    /** Takes an allocated cell off its list and inserts it among the free ones. */
    method UnmoveCell(cell: nat, freeHead: nat, usedHead: nat, ghost hp: Heap, ghost j: nat)
      returns (head: nat, front: nat)
      requires GoodHeap(hp) && j < |hp.used| && hp.used[j].at == cell
      requires Listed(mem.Mem(), hp.free, freeHead) && Listed(mem.Mem(), hp.used, usedHead)
      modifies mem
      ensures var h' := Release(hp, j);
        h'.size == hp.size && Listed(mem.Mem(), h'.free, head) && Listed(mem.Mem(), h'.used, front)
      ensures forall c: nat :: !Owns(hp, c) ==> SameCell(old(mem.Mem()), mem.Mem(), c)
    {
      FreeNotUsed(hp, j);
      hide GoodHeap, Chain, Join, Covers;
      front := mem.DLExtract(usedHead, cell, hp.used, j);
      ghost var m := mem.Mem();
      assert m.Size(cell) == hp.used[j].len;
      ListedFrame(old(mem.Mem()), m, hp.free, freeHead);
      head := mem.DLInsert(freeHead, cell, hp.used[j], hp.free);
      ListedFrame(m, mem.Mem(), Release(hp, j).used, front);
    }

    /** Gives heap `h` the 32-byte aligned part of a range. */
    method AddToHeap(h: int, start: nat, end: nat)
      requires Valid() && GoodWorld(Abs()) && Enabled(Abs(), AddToHeapCall(h, start, end))
      modifies this, mem
      ensures Valid() && Abs() == HeapRuns.AddToHeap(old(Abs()), h, start, end)
    {
      if h < 0 || h >= |size| { return; }
      assert Describes(mem.Mem(), heaps[h], size[h], free[h], used[h]);
      if size[h] < 0 { return; }
      var s, e := RoundUp(start), RoundDown(end);
      GiveCell(h, s, (e - s) % WORD);
    }

    method GiveCell(h: nat, s: nat, n: nat)
      requires Valid() && GoodWorld(Abs()) && Usable(Abs(), h)
        && FreshRange(Abs(), Block(s, n), 0x7FFF_FFE0 - heaps[h].size)
      modifies this, mem
      ensures Valid() && Abs() == old(Abs()).(heaps := old(heaps)[h := AddRange(old(heaps)[h], Block(s, n))])
    {
      ghost var hp, m := heaps[h], mem.Mem();
      assert Describes(m, hp, size[h], free[h], used[h]);
      hide Listed, GoodHeap, GoodWorld, AddRange, RangeReady, Join, SameCell, Ats;
      RangeMoves(Abs(), h, Block(s, n));
      var head := InsertRange(s, n, free[h], hp, used[h]);
      Others(Abs(), h, Block(s, n), m, mem.Mem(), size, free, used);
      Redescribe(h, Signed((size[h] + n) % WORD), head, used[h], AddRange(hp, Block(s, n)));
    }

    method InsertRange(s: nat, n: nat, freeHead: nat, ghost hp: Heap, ghost usedHead: nat) returns (head: nat)
      requires RangeReady(hp, Block(s, n)) && Listed(mem.Mem(), hp.free, freeHead)
        && Listed(mem.Mem(), hp.used, usedHead)
      modifies mem
      ensures Listed(mem.Mem(), Join(hp.free, Block(s, n)), head) && Listed(mem.Mem(), hp.used, usedHead)
      ensures forall c: nat :: c != s && c !in Ats(hp.free) ==> SameCell(old(mem.Mem()), mem.Mem(), c)
    {
      ghost var m := mem.Mem();
      hide Chain, Join;
      mem.size := mem.size[s := n];
      ListedFrame(m, mem.Mem(), hp.free, freeHead);
      head := mem.DLInsert(freeHead, s, Block(s, n), hp.free);
      ListedFrame(m, mem.Mem(), hp.used, usedHead);
    }

    method Alloc(n: nat) returns (ptr: nat)
      requires Valid() && GoodWorld(Abs()) && Enabled(Abs(), AllocCall(currHeap, n))
      modifies this, mem
      ensures Valid() && (Abs(), ptr) == HeapRuns.AllocFromHeap(old(Abs()), old(currHeap), n)
    {
      ptr := AllocFromHeap(currHeap, n);
    }

    method Free(ptr: nat)
      requires Valid() && GoodWorld(Abs()) && Enabled(Abs(), FreeCall(currHeap, ptr))
      modifies this, mem
      ensures Valid() && Abs() == HeapRuns.FreeToHeap(old(Abs()), old(currHeap), ptr)
    {
      FreeToHeap(currHeap, ptr);
    }

    /** The check, whatever state memory is in. */
    method CheckHeap(h: int) returns (room: int)
      requires |size| == |free| == |used|
      ensures room ==
        if 0 <= h < |size| then RawCheck(mem.Mem(), size[h], free[h], used[h], arenaStart, arenaEnd) else -1
    {
      if h < 0 || h >= |size| { return -1; }
      if size[h] < 0 { return -1; }
      var total := CheckAllocated(used[h], size[h]);
      if total == -1 { return -1; }
      total, room := CheckFreeCells(free[h], size[h], total);
      if total != size[h] { return -1; }
    }

    /** On linked heaps the check is the one on what the lists hold. */
    lemma CheckOfHeap(h: int)
      requires Valid()
      ensures (if 0 <= h < |size| then RawCheck(mem.Mem(), size[h], free[h], used[h], arenaStart, arenaEnd) else -1)
        == HeapRuns.CheckHeap(Abs(), h)
    {
      if 0 <= h < |size| {
        assert Describes(mem.Mem(), heaps[h], size[h], free[h], used[h]);
        if heaps[h].Live() {
          RawOfLists(mem.Mem(), heaps[h], free[h], used[h], arenaStart, arenaEnd);
        }
      }
    }

    /** The walk of the allocated list: its total, -1 as soon as a test fails. */
    method CheckAllocated(head: nat, bytes: int) returns (total: int)
      requires bytes >= 0
      ensures total == if head != 0 && mem.Mem().Prev(head) != 0 then -1
                       else Walk(mem.Mem(), head, false, arenaStart, arenaEnd, bytes, 0)
      ensures total >= -1
    {
      ghost var m := mem.Mem();
      if head != 0 && At(mem.prev, head, 0) != 0 { return -1; }
      var cell: nat := head;
      total := 0;
      while cell != 0
        invariant total >= 0
        invariant Walk(m, head, false, arenaStart, arenaEnd, bytes, 0) ==
          Walk(m, cell, false, arenaStart, arenaEnd, bytes, total)
        decreases bytes - total
      {
        if cell < arenaStart || cell >= arenaEnd { return -1; }
        if cell % 32 != 0 { return -1; }
        var n: nat := At(mem.next, cell, 0);
        if n != 0 && At(mem.prev, n, 0) != cell { return -1; }
        var len := At(mem.size, cell, 0);
        if Signed(len) < MIN_OBJECT { return -1; }
        if len % 32 != 0 { return -1; }
        if total + Signed(len) <= 0 || total + Signed(len) > bytes { return -1; }
        total := total + Signed(len);
        cell := n;
      }
    }

    /** The walk of the free list: the total, and the bytes that could be handed out. */
    method CheckFreeCells(head: nat, bytes: int, start: int) returns (total: int, room: int)
      requires bytes >= 0 && start >= 0
      ensures total == if head != 0 && mem.Mem().Prev(head) != 0 then -1
                       else Walk(mem.Mem(), head, true, arenaStart, arenaEnd, bytes, start)
      ensures total != -1 ==> room == SignedRoom(Met(mem.Mem(), head, true, arenaStart, arenaEnd, bytes, start))
    {
      ghost var m := mem.Mem();
      if head != 0 && At(mem.prev, head, 0) != 0 { return -1, 0; }
      var cell: nat := head;
      total, room := start, 0;
      while cell != 0
        invariant total >= 0
        invariant Walk(m, head, true, arenaStart, arenaEnd, bytes, start) ==
          Walk(m, cell, true, arenaStart, arenaEnd, bytes, total)
        invariant Walk(m, head, true, arenaStart, arenaEnd, bytes, start) != -1 ==>
          SignedRoom(Met(m, head, true, arenaStart, arenaEnd, bytes, start))
          == room + SignedRoom(Met(m, cell, true, arenaStart, arenaEnd, bytes, total))
        decreases bytes - total
      {
        if cell < arenaStart || cell >= arenaEnd { return -1, 0; }
        if cell % 32 != 0 { return -1, 0; }
        var n: nat := At(mem.next, cell, 0);
        if n != 0 && At(mem.prev, n, 0) != cell { return -1, 0; }
        var len := At(mem.size, cell, 0);
        if Signed(len) < MIN_OBJECT { return -1, 0; }
        if len % 32 != 0 { return -1, 0; }
        if n != 0 && (cell + len) % WORD >= n { return -1, 0; }
        if total + Signed(len) <= 0 || total + Signed(len) > bytes { return -1, 0; }
        MetHead(m, cell, true, arenaStart, arenaEnd, bytes, total);
        total := total + Signed(len);
        room := room + Signed(len) - HEADER;
        cell := n;
      }
    }

    /** Takes `req` bytes, or all, of free cell `k`, and puts the cell in front of the allocated list. */
    method TakeCell(h: nat, cell: nat, req: nat, ghost k: nat)
      requires Valid() && GoodWorld(Abs()) && Usable(Abs(), h) && GrantReady(heaps[h], k, req)
        && heaps[h].free[k].at == cell
      modifies this, mem
      ensures Valid() && Abs() == old(Abs()).(heaps := old(heaps)[h := Grant(old(heaps)[h], k, req)])
    {
      ghost var hp, m := heaps[h], mem.Mem();
      assert HeapOk(Abs(), h) && Describes(m, hp, size[h], free[h], used[h]);
      var head, front := MoveCell(cell, free[h], used[h], req, hp, k);
      hide Listed, GoodHeap, Grant;
      Others(Abs(), h, Block(0, 0), m, mem.Mem(), size, free, used);
      Redescribe(h, size[h], head, front, Grant(hp, k, req));
    }

    method MoveCell(cell: nat, freeHead: nat, usedHead: nat, req: nat, ghost hp: Heap, ghost k: nat)
      returns (head: nat, front: nat)
      requires GoodHeap(hp) && GrantReady(hp, k, req) && hp.free[k].at == cell
      requires Listed(mem.Mem(), hp.free, freeHead) && Listed(mem.Mem(), hp.used, usedHead)
      modifies mem
      ensures var h' := Grant(hp, k, req);
        h'.size == hp.size && Listed(mem.Mem(), h'.free, head) && Listed(mem.Mem(), h'.used, front)
      ensures forall c: nat :: !Owns(hp, c) ==> SameCell(old(mem.Mem()), mem.Mem(), c)
    {
      GrantMoves(hp, k, req);
      TakenUsed(hp, k, req);
      hide GoodHeap, Chain, Grant, Granted;
      head := TakeFree(cell, freeHead, req, hp, k);
      ghost var m := mem.Mem();
      ListedFrame(old(mem.Mem()), m, hp.used, usedHead);
      front := mem.DLAddFront(usedHead, cell, Granted(hp.free[k], req), hp.used);
      ListedFrame(m, mem.Mem(), Grant(hp, k, req).free, head);
    }

    method TakeFree(cell: nat, list: nat, req: nat, ghost hp: Heap, ghost k: nat) returns (head: nat)
      requires GoodHeap(hp) && GrantReady(hp, k, req) && hp.free[k].at == cell && Listed(mem.Mem(), hp.free, list)
      modifies mem
      ensures Listed(mem.Mem(), Grant(hp, k, req).free, head)
      ensures mem.Mem().Size(cell) == Granted(hp.free[k], req).len
      ensures forall c: nat :: !Covers(hp.free, c) ==> SameCell(old(mem.Mem()), mem.Mem(), c)
    {
      hide GoodHeap, Listed, Grant, Remaining, Granted, Cell, Covers, Ats;
      RemainderInside(hp, k, req);
      SizeListed(mem.Mem(), hp.free, list, k);
      TakenFree(hp, k, req);
      var leftover := (At(mem.size, cell, 0) - req) % WORD;
      if leftover < MIN_OBJECT {
        head := mem.DLExtract(list, cell, hp.free, k);
      } else {
        head := mem.Carve(list, cell, req, hp.free, k);
      }
    }
  }

  /** Writes within heap `i` and a fresh range leave the other heaps' lists alone. */
  lemma Others(w: World, i: nat, b: Block, m: Ram, m': Ram, size: seq<int>, free: seq<nat>, used: seq<nat>)
    requires GoodWorld(w) && i < |w.heaps| == |size| == |free| == |used|
    requires forall j :: 0 <= j < |w.heaps| ==> Describes(m, w.heaps[j], size[j], free[j], used[j])
    requires forall j, x :: 0 <= j < |w.heaps| && j != i && w.heaps[j].Live() && Owns(w.heaps[j], x) ==> !b.Holds(x)
    requires forall c: nat :: !(w.heaps[i].Live() && Owns(w.heaps[i], c)) && !b.Holds(c) ==> SameCell(m, m', c)
    ensures forall j :: 0 <= j < |w.heaps| && j != i ==> Describes(m', w.heaps[j], size[j], free[j], used[j])
  {
    forall j | 0 <= j < |w.heaps| && j != i ensures Describes(m', w.heaps[j], size[j], free[j], used[j]) {
      assert HeapOk(w, j) && Disjoint(w, i, j);
      DescribesFrame(m, m', w.heaps[j], size[j], free[j], used[j]);
    }
  }

  ghost predicate GrantReady(h: Heap, k: nat, req: nat) {
    k < |h.free| && MIN_OBJECT <= req <= h.free[k].len && req % 32 == 0
  }

  lemma AllocMoves(w: World, i: nat, n: nat)
    requires GoodWorld(w) && Usable(w, i) && 0 < n <= MAX_REQUEST
    ensures var h := w.heaps[i];
      var req := Required(n);
      var k := FirstFit(h.free, req);
      && (k == |h.free| ==> Alloc(h, n) == (h, 0))
      && (k < |h.free| ==>
         h.free[k].at > 0 && GrantReady(h, k, req) && Alloc(h, n) == (Grant(h, k, req), h.free[k].at + HEADER))
  {
    assert HeapOk(w, i);
    AllocPicks(w.heaps[i], n);
    RequiredBounds(n);
  }

  /** The remainder of a split lies within the cell that was split, behind its first byte. */
  lemma SizeListed(m: Ram, s: seq<Block>, head: nat, k: nat)
    requires Listed(m, s, head) && k < |s|
    ensures m.Size(s[k].at) == s[k].len
  {
  }

  lemma RemainderInside(h: Heap, k: nat, req: nat)
    requires GoodHeap(h) && GrantReady(h, k, req)
    ensures Leftover(h.free[k], req) >= MIN_OBJECT ==>
      var r := (h.free[k].at + req) % WORD; r != 0 && r !in Ats(h.free) && Covers(h.free, r) && r != h.free[k].at
    ensures forall c: nat :: !Covers(h.free, c) ==> c !in Ats(h.free)
  {
    FitsInWord(h, k);
    var b := h.free[k];
    forall c: nat | !Covers(h.free, c) ensures c !in Ats(h.free) { FreeOrUsed(h, c); }
    assert Leftover(b, req) == b.len - req && Cell(b);
    if Leftover(b, req) >= MIN_OBJECT {
      var r := (b.at + req) % WORD;
      assert r == b.at + req && b.Holds(r);
      forall j | 0 <= j < |h.free| ensures h.free[j].at != r {
        if j < k { assert h.free[j].End() < b.at; }
        if j > k { assert b.End() < h.free[j].at; }
      }
    }
  }

  lemma TakenFree(h: Heap, k: nat, req: nat)
    requires k < |h.free|
    ensures var b, f := h.free[k], Grant(h, k, req).free;
      && (Leftover(b, req) < MIN_OBJECT ==> f == h.free[..k] + h.free[k + 1..] && Granted(b, req).len == b.len)
      && (Leftover(b, req) >= MIN_OBJECT ==>
          f == h.free[..k] + [Block((b.at + req) % WORD, Leftover(b, req))] + h.free[k + 1..]
            && Granted(b, req).len == req)
  {
    assert h.free[..k] + [] + h.free[k + 1..] == h.free[..k] + h.free[k + 1..];
  }

  lemma TakenUsed(h: Heap, k: nat, req: nat)
    requires k < |h.free|
    ensures Grant(h, k, req).used == [Granted(h.free[k], req)] + h.used && Grant(h, k, req).size == h.size
  {
  }

  lemma GrantMoves(h: Heap, k: nat, req: nat)
    requires GoodHeap(h) && GrantReady(h, k, req)
    ensures var h', cell := Grant(h, k, req), h.free[k].at;
      && GoodHeap(h') && Granted(h.free[k], req).at == cell && cell != 0 && cell !in Ats(h.used)
      && (forall i :: 0 <= i < |h.used| ==> !Covers(h.free, h.used[i].at))
      && (forall i :: 0 <= i < |h'.free| ==> h'.free[i].at != cell && h'.free[i].at !in Ats(h.used))
      && (forall c: nat :: !Owns(h, c) ==> c != cell && c !in Ats(h.used))
  {
    var cell := h.free[k].at;
    FitsInWord(h, k);
    Split(h.free[k], req);
    GrantGood(h, k, req);
    assert Ats(h.free)[k] == cell && Cell(h.free[k]);
    FreeOrUsed(h, cell);
    GrantedUsed(h, k, req);
    UsedNotFree(h);
    forall c: nat | !Owns(h, c) ensures c != cell && c !in Ats(h.used) { FreeOrUsed(h, c); }
  }

  lemma UsedNotFree(h: Heap)
    requires GoodHeap(h)
    ensures forall i :: 0 <= i < |h.used| ==> !Covers(h.free, h.used[i].at)
  {
    forall i | 0 <= i < |h.used| ensures !Covers(h.free, h.used[i].at) {
      forall j | 0 <= j < |h.free| ensures !h.free[j].Holds(h.used[i].at) { assert Apart(h.free[j], h.used[i]); }
    }
  }

  lemma GrantedUsed(h: Heap, k: nat, req: nat)
    requires k < |h.free| && GoodHeap(Grant(h, k, req)) && Granted(h.free[k], req).at == h.free[k].at
    ensures var h', cell := Grant(h, k, req), h.free[k].at;
      forall i :: 0 <= i < |h'.free| ==> h'.free[i].at != cell && h'.free[i].at !in Ats(h.used)
  {
    var h', cell := Grant(h, k, req), h.free[k].at;
    forall i | 0 <= i < |h'.free| ensures h'.free[i].at != cell && h'.free[i].at !in Ats(h.used) {
      assert Ats(h'.free)[i] == h'.free[i].at;
      FreeOrUsed(h', h'.free[i].at);
      assert Ats(h'.used)[0] == cell;
      forall j | 0 <= j < |h.used| ensures h.used[j].at != h'.free[i].at { assert Ats(h'.used)[j + 1] == h.used[j].at; }
    }
  }

  lemma FreeNotUsed(h: Heap, j: nat)
    requires GoodHeap(h) && j < |h.used|
    ensures var b := h.used[j];
      && b.at != 0 && b.at !in Ats(h.free) && b.End() < WORD
         && (forall i :: 0 <= i < |h.free| ==> h.free[i].End() < WORD)
      && (forall i :: 0 <= i < |h.free| ==> h.free[i].at !in Ats(h.used))
      && (forall i :: 0 <= i < |Release(h, j).used| ==>
         Release(h, j).used[i].at != b.at && Release(h, j).used[i].at !in Ats(h.free))
      && (forall c: nat :: !Owns(h, c) ==> c !in Ats(h.free) && c !in Ats(h.used))
  {
    var b, h' := h.used[j], Release(h, j);
    assert Cell(b) && Ats(h.used)[j] == b.at;
    FreeOrUsed(h, b.at);
    forall i | 0 <= i < |h.free| ensures h.free[i].End() < WORD && h.free[i].at !in Ats(h.used) {
      assert Cell(h.free[i]) && Ats(h.free)[i] == h.free[i].at;
      FreeOrUsed(h, h.free[i].at);
    }
    forall i | 0 <= i < |h'.used| ensures h'.used[i].at != b.at && h'.used[i].at !in Ats(h.free) {
      var n := if i < j then i else i + 1;
      assert h'.used[i] == h.used[n] && Ats(h.used)[n] == h.used[n].at && Apart(h.used[n], b);
      FreeOrUsed(h, h.used[n].at);
    }
    forall c: nat | !Owns(h, c) ensures c !in Ats(h.free) && c !in Ats(h.used) { FreeOrUsed(h, c); }
  }

  ghost predicate RangeReady(h: Heap, b: Block) {
    && b.at != 0 && b.at !in Ats(h.free) && b.End() < WORD && (forall i :: 0 <= i < |h.free| ==> h.free[i].End() < WORD)
    && (forall i :: 0 <= i < |h.free| ==> h.free[i].at != b.at)
    && (forall i :: 0 <= i < |h.used| ==> h.used[i].at != b.at && h.used[i].at !in Ats(h.free))
  }

  lemma RangeMoves(w: World, i: nat, b: Block)
    requires GoodWorld(w) && Usable(w, i) && FreshRange(w, b, 0x7FFF_FFE0 - w.heaps[i].size)
    ensures var h := w.heaps[i];
      && RangeReady(h, b) && AddRange(h, b) == Heap(Signed((h.size + b.len) % WORD), Join(h.free, b), h.used)
      && (forall c: nat :: !Owns(h, c) && !b.Holds(c) ==> c != b.at && c !in Ats(h.free))
  {
    var h := w.heaps[i];
    assert HeapOk(w, i) && b.Holds(b.at);
    forall j | 0 <= j < |h.free| ensures h.free[j].at != b.at && h.free[j].End() < WORD {
      assert Cell(h.free[j]) && Ats(h.free)[j] == h.free[j].at;
      FreeOrUsed(h, h.free[j].at);
    }
    forall j | 0 <= j < |h.used| ensures h.used[j].at != b.at && h.used[j].at !in Ats(h.free) {
      assert Ats(h.used)[j] == h.used[j].at;
      FreeOrUsed(h, h.used[j].at);
    }
    forall c: nat | !Owns(h, c) && !b.Holds(c) ensures c != b.at && c !in Ats(h.free) { FreeOrUsed(h, c); }
  }
}
