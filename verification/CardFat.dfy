/** The table allocator in its own form: the table is an array rewritten in place by scan and chain loops. */
module CardFat {
  import opened Fat
  import opened FatOps

  class Card {
    var attached: bool
    const cBlock: int
    /** First block of the chain allocated last. */
    var startBlock: int
    const fat: array<int>

    ghost predicate Valid()
      reads this, fat
    {
      fat.Length == ENTRIES && Table(fat[..]) && Blocks(cBlock)
    }

    constructor (c: int)
      requires Blocks(c)
      ensures Valid() && attached && cBlock == c && fresh(fat)
      ensures forall i :: 0 <= i < ENTRIES ==> fat[i] == 0
    {
      attached, cBlock, startBlock := true, c, END;
      fat := new int[ENTRIES](_ => 0);
    }

    method UpdateFatBlock()
      requires Valid()
      modifies fat
      ensures Valid() && fat[..] == Update(old(fat[..]))
    {
      ghost var f := fat[..];
      fat[CHECK_CODE] := (fat[CHECK_CODE] + 1) % WORD;
      ghost var h := fat[..];
      assert h == f[CHECK_CODE := (f[CHECK_CODE] + 1) % WORD];
      var a, b := CheckSum(fat, CHECK_CODE, 0x1FFC);
      assert h[CHECK_CODE..CHECK_CODE + 0x1FFC / 2] == h[CHECK_CODE..];
      fat[CHECKSUM] := a;
      fat[CHECKSUM_INV] := b;
      assert fat[..] == h[CHECKSUM := a][CHECKSUM_INV := b];
    }

    method AllocBlock(n: nat) returns (code: int)
      requires Valid()
      modifies fat, `startBlock
      ensures Valid()
      ensures var (r, g, start) := Alloc(old(fat[..]), cBlock, attached, n);
        code == r && fat[..] == g && startBlock == if r == READY then start else old(startBlock)
    {
      if !attached { return NO_CARD; }
      var freeBlocks := fat[FREE_BLOCKS];
      if freeBlocks < n { return INS_SPACE; }
      ghost var f := fat[..];
      var ok, start := Gather(n);
      hide Link, Update;
      if !ok { return BROKEN; }
      startBlock := start;
      UpdateFatBlock();
      code := READY;
    }

    /** The scan: links the first `n` free blocks it meets, in circular order after the last slot. */
    method Gather(n: nat) returns (ok: bool, start: int)
      requires Valid() && n <= fat[FREE_BLOCKS]
      modifies fat
      ensures Valid()
      ensures var f, all := old(fat[..]), Available(old(fat[..]), cBlock);
        && ok == (n <= |all|)
        && fat[..] == (if ok then Taken(f, n, all[..n]) else Link(f[FREE_BLOCKS := f[FREE_BLOCKS] - n], all))
        && (ok ==> start == if n == 0 then END else all[0])
    {
      ghost var f := fat[..];
      fat[FREE_BLOCKS] := fat[FREE_BLOCKS] - n;
      ghost var g := fat[..];
      assert g == f[FREE_BLOCKS := f[FREE_BLOCKS] - n];
      var b: int;
      ok, start, b := ScanLoop(n, f);
      ScanEnds(f, cBlock, n, ok, start, b, fat[..]);
      hide Link, Taken, Available, Scan, ScanOutcome;
      if ok { fat[LAST_SLOT] := b; }
    }

    method ScanLoop(n: nat, ghost f: seq<int>) returns (ok: bool, start: int, b: int)
      requires fat.Length == ENTRIES && Table(f) && Blocks(cBlock) && n <= f[FREE_BLOCKS]
      requires fat[..] == f[FREE_BLOCKS := f[FREE_BLOCKS] - n]
      modifies fat
      ensures ScanOutcome(f, cBlock, n, ok, start, b, fat[..])
    {
      hide Scan, Link, Scanned, Visit, ScanOutcome;
      ghost var s, g := Succ(f[LAST_SLOT], cBlock), fat[..];
      start := END;
      var prev, count, left := 0, 0, n;
      b := fat[LAST_SLOT];
      ScanNone(f, s, cBlock, n, g);
      while 0 < left
        invariant 0 <= left <= n && 0 <= count <= cBlock - FIRST && (n == 0 ==> count == 0)
        invariant b == if count == 0 then f[LAST_SLOT] else Visit(s, cBlock, count - 1)
        invariant Scanned(f, s, cBlock, n, count, left, start, prev, b)
        invariant fat[..] == Link(g, Scan(f, s, cBlock, count))
        decreases cBlock - count
      {
        count := count + 1;
        if cBlock - FIRST < count {
          LoopEnds(f, cBlock, n, count - 1, left, start, prev, b, fat[..]);
          return false, END, b;
        }
        ScanStep(f, s, cBlock, n, count - 1, left, start, prev, b, g);
        b := (b + 1) % WORD;
        if !ValidNo(b, cBlock) { b := FIRST; }
        if fat[b] == 0 {
          var first := start == END;
          Append(b, prev, first);
          if first { start := b; }
          prev := b;
          left := left - 1;
        }
      }
      LoopEnds(f, cBlock, n, count, 0, start, prev, b, fat[..]);
      ok := true;
    }

    /** Links block `b` behind the previous one, if any, and marks it as the end. */
    method Append(b: int, prev: int, first: bool)
      requires fat.Length == ENTRIES && 0 <= b < ENTRIES && (!first ==> 0 <= prev < ENTRIES)
      modifies fat
      ensures fat[..] == (if first then old(fat[..]) else old(fat[..])[prev := b])[b := END]
    {
      if !first { fat[prev] := b; }
      fat[b] := END;
    }

    method FreeBlock(nBlock: int) returns (code: int)
      requires Valid()
      modifies fat
      ensures Valid()
      ensures (code, fat[..]) == FatOps.FreeBlock(old(fat[..]), cBlock, attached, nBlock)
    {
      if !attached { return NO_CARD; }
      var b := nBlock;
      ghost var f := fat[..];
      while b != END
        invariant Valid() && Walk(fat[..], cBlock, b) == Walk(f, cBlock, nBlock)
        decreases |UsedSet(fat[..], cBlock)| + (if ValidNo(b, cBlock) then 1 else 0)
      {
        if !ValidNo(b, cBlock) { return BROKEN; }
        ghost var h := fat[..];
        FreedShrinks(h, cBlock, b);
        var next := fat[b];
        fat[b] := 0;
        fat[FREE_BLOCKS] := (fat[FREE_BLOCKS] + 1) % WORD;
        assert fat[..] == Freed(h, b);
        b := next;
      }
      UpdateFatBlock();
      code := READY;
    }
  }

  /** Both checksums of `length` bytes of words from index `from`. */
  method CheckSum(a: array<int>, from: int, length: int) returns (checksum: int, checksumInv: int)
    requires 0 <= from && 0 <= length && from + length / 2 <= a.Length
    ensures (checksum, checksumInv) == CheckSums(a[from..from + length / 2])
  {
    var n := length / 2;
    checksum, checksumInv := 0, 0;
    for i := 0 to n
      invariant checksum == WordSum(a[from..from + i]) % WORD && checksumInv == InvSum(a[from..from + i]) % WORD
    {
      var v := a[from + i];
      ghost var w := a[from..from + i + 1];
      assert w[..|w| - 1] == a[from..from + i];
      checksum := (checksum + v) % WORD;
      checksumInv := (checksumInv + (0xFFFF - v)) % WORD;
    }
    if checksum == 0xFFFF { checksum := 0; }
    if checksumInv == 0xFFFF { checksumInv := 0; }
  }

  /** Where the scan stands after `k` blocks. */
  ghost predicate Scanned(f: seq<int>, s: int, c: int, n: nat, k: int, left: int, start: int, prev: int, b: int)
    requires |f| == ENTRIES && Blocks(c) && ValidNo(s, c) && 0 <= k <= c - FIRST
  {
    var r := Scan(f, s, c, k);
    && |r| == n - left && start == (if r == [] then END else r[0]) && (r != [] ==> prev == r[|r| - 1])
    && (left == 0 && n > 0 ==> r != [] && b == r[|r| - 1])
  }

  lemma ScanNone(f: seq<int>, s: int, c: int, n: nat, g: seq<int>)
    requires |f| == |g| == ENTRIES && Blocks(c) && ValidNo(s, c)
    ensures Scan(f, s, c, 0) == [] && Link(g, []) == g && Scanned(f, s, c, n, 0, n, END, 0, f[LAST_SLOT])
  {
  }

  /** How the scan ends: with all the free blocks linked when there are too few of them. */
  ghost predicate ScanOutcome(f: seq<int>, c: int, n: nat, ok: bool, start: int, b: int, h: seq<int>)
    requires Table(f) && Blocks(c) && n <= f[FREE_BLOCKS]
  {
    var s, g := Succ(f[LAST_SLOT], c), f[FREE_BLOCKS := f[FREE_BLOCKS] - n];
    var all := Scan(f, s, c, c - FIRST);
    if ok then
      && n <= |all| && h == Link(g, all[..n]) && start == (if n == 0 then END else all[0])
      && b == (if n == 0 then f[LAST_SLOT] else all[n - 1])
    else
      |all| < n && h == Link(g, all)
  }

  lemma LoopEnds(f: seq<int>, c: int, n: nat, k: int, left: int, start: int, prev: int, b: int, h: seq<int>)
    requires Table(f) && Blocks(c) && n <= f[FREE_BLOCKS] && 0 <= k <= c - FIRST && 0 <= left <= n
    requires var s := Succ(f[LAST_SLOT], c);
      && b == (if k == 0 then f[LAST_SLOT] else Visit(s, c, k - 1))
      && Scanned(f, s, c, n, k, left, start, prev, b)
         && h == Link(f[FREE_BLOCKS := f[FREE_BLOCKS] - n], Scan(f, s, c, k))
    requires (n == 0 ==> k == 0) && (left == 0 || k == c - FIRST)
    ensures ScanOutcome(f, c, n, left == 0, if left == 0 then start else END, b, h)
  {
    hide Link, Scan, Visit, Succ;
    var s, g := Succ(f[LAST_SLOT], c), f[FREE_BLOCKS := f[FREE_BLOCKS] - n];
    var r, all := Scan(f, s, c, k), Scan(f, s, c, c - FIRST);
    ScanPrefix(f, s, c, k, c - FIRST);
    if left == 0 {
      assert r == all[..n];
      assert h == Link(g, all[..n]);
    } else {
      assert r == all;
    }
  }

  lemma ScanEnds(f: seq<int>, c: int, n: nat, ok: bool, start: int, b: int, h: seq<int>)
    requires Table(f) && Blocks(c) && n <= f[FREE_BLOCKS] && ScanOutcome(f, c, n, ok, start, b, h)
    ensures |h| == ENTRIES
    ensures var all, h' := Available(f, c), if ok then h[LAST_SLOT := b] else h;
      && Table(h') && ok == (n <= |all|) && (ok ==> start == if n == 0 then END else all[0])
      && h' == if ok then Taken(f, n, all[..n]) else Link(f[FREE_BLOCKS := f[FREE_BLOCKS] - n], all)
  {
    var g, all := f[FREE_BLOCKS := f[FREE_BLOCKS] - n], Available(f, c);
    assert all == Scan(f, Succ(f[LAST_SLOT], c), c, c - FIRST);
    hide Scan, Available, IsChain;
    if !ok {
      LinkedTable(g, c, all);
    } else {
      TakenIs(f, n, all[..n]);
      hide Link, Taken;
      TakenAt(f, c, n, all[..n]);
    }
  }

  lemma TakenIs(f: seq<int>, n: nat, ch: seq<int>)
    requires |f| == ENTRIES && forall i :: 0 <= i < |ch| ==> 0 <= ch[i] < |f|
    ensures Taken(f, n, ch) ==
      Link(f[FREE_BLOCKS := f[FREE_BLOCKS] - n], ch)[LAST_SLOT := if ch == [] then f[LAST_SLOT] else ch[|ch| - 1]]
  {
  }

  lemma LinkedTable(f: seq<int>, c: int, ch: seq<int>)
    requires Table(f) && Blocks(c) && NoDup(ch) && forall i :: 0 <= i < |ch| ==> FIRST <= ch[i] < c
    ensures Table(Link(f, ch))
  {
    LinkAt(f, ch);
    forall b | 0 <= b < ENTRIES ensures 0 <= Link(f, ch)[b] < WORD {
      if b in ch { var i :| 0 <= i < |ch| && ch[i] == b; assert Link(f, ch)[ch[i]] == After(ch, i); }
    }
  }

  /** One block further: what the scan finds there and what it does about it. */
  lemma ScanStep(f: seq<int>, s: int, c: int, n: nat, k: int, left: int, start: int, prev: int, b: int, g: seq<int>)
    requires Table(f) && Blocks(c) && s == Succ(f[LAST_SLOT], c) && 0 <= k < c - FIRST && left > 0 && |g| == ENTRIES
    requires b == if k == 0 then f[LAST_SLOT] else Visit(s, c, k - 1)
    requires Scanned(f, s, c, n, k, left, start, prev, b)
    requires forall i :: FIRST <= i < c ==> g[i] == f[i]
    ensures var b', r := Visit(s, c, k), Scan(f, s, c, k);
      && Succ(b, c) == b' && ValidNo(b', c) && b' !in r && Link(g, r)[b'] == f[b']
      && (start != END ==> 0 <= prev < ENTRIES)
      && Scan(f, s, c, k + 1) == (if f[b'] == 0 then r + [b'] else r)
      && (f[b'] == 0 ==> Link(g, r + [b']) == (if start != END then Link(g, r)[prev := b'] else Link(g, r))[b' := END])
      && (f[b'] == 0 ==> Scanned(f, s, c, n, k + 1, left - 1, if start == END then b' else start, b', b'))
      && (f[b'] != 0 ==> Scanned(f, s, c, n, k + 1, left, start, prev, b'))
  {
    var b', r := Visit(s, c, k), Scan(f, s, c, k);
    ScanMembers(f, s, c, k);
    VisitOnce(s, c, b');
    if k > 0 { VisitNext(s, c, k - 1); }
    hide Visit, Link;
    LinkAt(g, r);
    LinkAppend(g, r, b');
  }

  lemma LinkAppend(g: seq<int>, r: seq<int>, b: int)
    requires (forall i :: 0 <= i < |r| ==> 0 <= r[i] < |g|) && 0 <= b < |g|
    ensures Link(g, r + [b]) == (if r != [] then Link(g, r)[r[|r| - 1] := b] else Link(g, r))[b := END]
  {
    assert (r + [b])[..|r|] == r;
  }
}
