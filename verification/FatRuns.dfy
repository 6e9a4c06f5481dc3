/** Files on a card: what any run of allocations and frees keeps. */
module FatRuns {
  import opened Fat
  import opened FatOps

  /** Freeing a chain of blocks that were free in `f`. */
  lemma FreeRestores(f: seq<int>, g: seq<int>, c: int, ch: seq<int>)
    requires Table(f) && Table(g) && Blocks(c) && IsChain(g, c, ch) && ch != []
    requires g[FREE_BLOCKS] == f[FREE_BLOCKS] - |ch|
    requires forall b :: ValidNo(b, c) ==> f[b] == if b in ch then 0 else g[b]
    ensures var (code, h) := FreeBlock(g, c, true, ch[0]);
      code == READY && |h| == ENTRIES && h[FREE_BLOCKS] == f[FREE_BLOCKS] && forall b :: ValidNo(b, c) ==> h[b] == f[b]
  {
    var h := Cleared(g, ch);
    WalkChain(g, c, ch);
    assert FreeBlock(g, c, true, ch[0]) == (READY, Update(h));
    hide Walk, FreeBlock;
    ClearedAt(g, ch);
    UpdateKeeps(h);
  }

  /** Freeing the chain just allocated restores every data entry and the free count. */
  lemma AllocFreeRestores(f: seq<int>, c: int, n: nat)
    requires Table(f) && Blocks(c) && |FreeSet(f, c)| == f[FREE_BLOCKS] && 0 < n <= |FreeSet(f, c)|
    ensures var (code, g, start) := Alloc(f, c, true, n);
      && |g| == ENTRIES
      && var (code', h) := FreeBlock(g, c, true, start);
      && code' == READY && |h| == ENTRIES && h[FREE_BLOCKS] == f[FREE_BLOCKS]
      && forall b :: ValidNo(b, c) ==> h[b] == f[b]
  {
    AllocGood(f, c, n);
    var g, ch := Alloc(f, c, true, n).1, Available(f, c)[..n];
    hide Alloc, FreeBlock;
    forall b | ValidNo(b, c) ensures f[b] == if b in ch then 0 else g[b] {
      if b in ch { var i :| 0 <= i < |ch| && ch[i] == b; }
    }
    FreeRestores(f, g, c, ch);
  }

  lemma UpdateKeeps(f: seq<int>)
    requires |f| == ENTRIES
    ensures forall b :: FREE_BLOCKS <= b < ENTRIES ==> Update(f)[b] == f[b]
  {
  }

  lemma ChainNonzero(f: seq<int>, c: int, ch: seq<int>, b: int)
    requires |f| == ENTRIES && Blocks(c) && IsChain(f, c, ch) && b in ch
    ensures ValidNo(b, c) && f[b] != 0
  {
    var i :| 0 <= i < |ch| && ch[i] == b;
    assert f[ch[i]] == After(ch, i);
  }

  lemma ChainFrame(f: seq<int>, g: seq<int>, c: int, ch: seq<int>)
    requires |f| == |g| == ENTRIES && Blocks(c) && IsChain(f, c, ch) && forall b :: b in ch ==> g[b] == f[b]
    ensures IsChain(g, c, ch)
  {
    forall i | 0 <= i < |ch| ensures g[ch[i]] == After(ch, i) { assert ch[i] in ch && f[ch[i]] == After(ch, i); }
  }

  /** A new chain of free blocks keeps every data block free or on exactly one chain. */
  lemma PartitionAdd(f: seq<int>, g: seq<int>, c: int, cs: seq<seq<int>>, ch: seq<int>)
    requires |f| == |g| == ENTRIES && Blocks(c) && Partition(f, c, cs)
    requires ch != [] && IsChain(g, c, ch) && forall b :: b in ch ==> f[b] == 0
    requires forall b :: ValidNo(b, c) && b !in ch ==> g[b] == f[b]
    ensures Partition(g, c, cs + [ch])
  {
    var ds := cs + [ch];
    forall i | 0 <= i < |ds| ensures ds[i] != [] && IsChain(g, c, ds[i]) {
      if i < |cs| {
        forall b | b in cs[i] ensures g[b] == f[b] { ChainNonzero(f, c, cs[i], b); }
        ChainFrame(f, g, c, cs[i]);
      }
    }
    forall i, j, b | 0 <= i < |ds| && 0 <= j < |ds| && b in ds[i] && b in ds[j] ensures i == j {
      if i < |cs| { ChainNonzero(f, c, cs[i], b); }
      if j < |cs| { ChainNonzero(f, c, cs[j], b); }
    }
    forall b | ValidNo(b, c) && g[b] != 0 ensures exists i :: 0 <= i < |ds| && b in ds[i] {
      if b in ch {
        assert b in ds[|cs|];
      } else {
        var i :| 0 <= i < |cs| && b in cs[i];
        assert b in ds[i];
      }
    }
  }

  function Drop(cs: seq<seq<int>>, k: nat): seq<seq<int>>
    requires k < |cs|
  {
    cs[..k] + cs[k + 1..]
  }

  lemma PartitionDrop(f: seq<int>, g: seq<int>, c: int, cs: seq<seq<int>>, k: nat)
    requires |f| == |g| == ENTRIES && Blocks(c) && Partition(f, c, cs) && k < |cs|
    requires forall b :: ValidNo(b, c) ==> g[b] == if b in cs[k] then 0 else f[b]
    ensures Partition(g, c, Drop(cs, k))
  {
    var ds := Drop(cs, k);
    forall i | 0 <= i < |ds| ensures ds[i] != [] && IsChain(g, c, ds[i]) {
      var j := if i < k then i else i + 1;
      assert ds[i] == cs[j];
      forall b | b in cs[j] ensures g[b] == f[b] { ChainNonzero(f, c, cs[j], b); }
      ChainFrame(f, g, c, cs[j]);
    }
    forall i, j, b | 0 <= i < |ds| && 0 <= j < |ds| && b in ds[i] && b in ds[j] ensures i == j {
      assert ds[i] == cs[if i < k then i else i + 1] && ds[j] == cs[if j < k then j else j + 1];
    }
    forall b | ValidNo(b, c) && g[b] != 0 ensures exists i :: 0 <= i < |ds| && b in ds[i] {
      var i :| 0 <= i < |cs| && b in cs[i];
      assert i != k && ds[if i < k then i else i - 1] == cs[i];
    }
  }

  // ----- runs

  /** A card's table and the files on it. */
  datatype Disk = Disk(f: seq<int>, files: seq<seq<int>>)

  datatype Call = AllocCall(n: nat) | FreeCall(k: nat)

  function Lengths(files: seq<seq<int>>): int {
    if files == [] then 0 else Lengths(files[..|files| - 1]) + |files[|files| - 1]|
  }

  ghost predicate Good(d: Disk, c: int) {
    && Table(d.f) && Blocks(c) && Accepts(d.f, c) && Partition(d.f, c, d.files)
    && |FreeSet(d.f, c)| + Lengths(d.files) == c - FIRST
  }

  ghost predicate Enabled(d: Disk, c: Call) {
    c.FreeCall? ==> c.k < |d.files| && d.files[c.k] != []
  }

  ghost function Step(d: Disk, c: int, call: Call): (int, Disk)
    requires Table(d.f) && Blocks(c) && Enabled(d, call)
  {
    match call
    case AllocCall(n) =>
      var (code, g, start) := Alloc(d.f, c, true, n);
      (code, if code == READY && n > 0 then Disk(g, d.files + [Available(d.f, c)[..n]]) else Disk(g, d.files))
    case FreeCall(k) =>
      var (code, g) := FreeBlock(d.f, c, true, d.files[k][0]);
      (code, Disk(g, Drop(d.files, k)))
  }

  lemma LengthsDrop(cs: seq<seq<int>>, k: nat)
    requires k < |cs|
    ensures Lengths(Drop(cs, k)) == Lengths(cs) - |cs[k]|
    decreases |cs|
  {
    var n := |cs| - 1;
    if k < n {
      LengthsDrop(cs[..n], k);
      assert Drop(cs, k)[..n - 1] == Drop(cs[..n], k) && Drop(cs, k)[n - 1] == cs[n];
    } else {
      assert Drop(cs, k) == cs[..n];
    }
  }

  /** No call finds the table broken, and an allocation fails only for want of blocks. */
  lemma StepGood(d: Disk, c: int, call: Call)
    requires Good(d, c) && Enabled(d, call)
    ensures var (code, d') := Step(d, c, call);
      Good(d', c) && code == if call.AllocCall? && call.n > |FreeSet(d.f, c)| then INS_SPACE else READY
  {
    match call
    case AllocCall(n) =>
      AllocCode(d.f, c, n);
      if n <= |FreeSet(d.f, c)| { AllocStep(d, c, n); }
    case FreeCall(k) =>
      FreeStep(d, c, k);
  }

  /** A card with one more file, of blocks that were free. */
  lemma GrowGood(d: Disk, g: seq<int>, c: int, ch: seq<int>)
    requires Good(d, c) && Table(g) && Accepts(g, c) && ch != [] && IsChain(g, c, ch)
    requires forall b :: b in ch ==> b in FreeSet(d.f, c)
    requires forall b :: ValidNo(b, c) && b !in ch ==> g[b] == d.f[b]
    requires FreeSet(g, c) == FreeSet(d.f, c) - (set b | b in ch)
    ensures Good(Disk(g, d.files + [ch]), c)
  {
    var taken := set b | b in ch;
    LengthIsCount(ch, taken);
    PartitionAdd(d.f, g, c, d.files, ch);
    hide Accepts, IsChain, Partition, FreeSet, Table;
    assert (d.files + [ch])[..|d.files|] == d.files;
    assert taken <= FreeSet(d.f, c);
  }

  lemma AllocStep(d: Disk, c: int, n: nat)
    requires Good(d, c) && n <= |FreeSet(d.f, c)|
    ensures Good(Step(d, c, AllocCall(n)).1, c)
  {
    AllocGood(d.f, c, n);
    var g, ch := Alloc(d.f, c, true, n).1, Available(d.f, c)[..n];
    assert Step(d, c, AllocCall(n)).1 == Disk(g, if n > 0 then d.files + [ch] else d.files);
    hide Alloc, Accepts, Step, IsChain, Partition, FreeSet, Table;
    if n > 0 {
      GrowGood(d, g, c, ch);
    } else {
      SamePartition(d.f, g, c, d.files);
      assert (set b | b in ch) == {};
    }
  }

  lemma SamePartition(f: seq<int>, g: seq<int>, c: int, cs: seq<seq<int>>)
    requires |f| == |g| == ENTRIES && Blocks(c) && Partition(f, c, cs) && forall b :: ValidNo(b, c) ==> g[b] == f[b]
    ensures Partition(g, c, cs)
  {
    forall i | 0 <= i < |cs| ensures IsChain(g, c, cs[i]) {
      forall b | b in cs[i] ensures g[b] == f[b] { ChainNonzero(f, c, cs[i], b); }
      ChainFrame(f, g, c, cs[i]);
    }
  }

  lemma ClearedCount(f: seq<int>, c: int, ch: seq<int>)
    requires Table(f) && Blocks(c) && IsChain(f, c, ch)
    ensures |FreeSet(Cleared(f, ch), c)| == |FreeSet(f, c)| + |ch|
  {
    ClearedAt(f, ch);
    var freed := set b | b in ch;
    LengthIsCount(ch, freed);
    forall b ensures b in FreeSet(Cleared(f, ch), c) <==> b in FreeSet(f, c) || b in freed {
      if b in ch { ChainNonzero(f, c, ch, b); }
    }
    assert FreeSet(Cleared(f, ch), c) == FreeSet(f, c) + freed;
    forall b | b in freed ensures b !in FreeSet(f, c) { ChainNonzero(f, c, ch, b); }
    assert FreeSet(f, c) !! freed;
  }

  /** Freeing a file of a sound table makes exactly its blocks free, and counts them; the next allocation still starts
      where it would have, and the table is stored as an update. */
  lemma FreeGood(f: seq<int>, c: int, ch: seq<int>)
    requires Table(f) && Blocks(c) && |FreeSet(f, c)| == f[FREE_BLOCKS] && ch != [] && IsChain(f, c, ch)
    ensures var (code, g) := FreeBlock(f, c, true, ch[0]);
      && code == READY && Table(g) && Accepts(g, c)
      && (forall b :: ValidNo(b, c) ==> g[b] == if b in ch then 0 else f[b])
      && g[FREE_BLOCKS] == f[FREE_BLOCKS] + |ch| && g[LAST_SLOT] == f[LAST_SLOT]
      && g[CHECK_CODE] == (f[CHECK_CODE] + 1) % 65536
  {
    var h := Cleared(f, ch);
    WalkChain(f, c, ch);
    assert FreeBlock(f, c, true, ch[0]) == (READY, Update(h));
    ClearedAt(f, ch);
    ClearedCount(f, c, ch);
    FreeFits(h, c);
    hide Cleared, Update, Accepts, Table, FreeSet, IsChain, CheckSums, FreeBlock;
    UpdateAccepted(h, c);
    UpdateWords(h);
  }

  /** The free blocks of a card are fewer than a word can count. */
  lemma FreeFits(f: seq<int>, c: int)
    requires |f| == ENTRIES && Blocks(c)
    ensures |FreeSet(f, c)| < WORD
  {
    var s := seq(c - FIRST, i => i + FIRST);
    var data := set b | b in s;
    LengthIsCount(s, data);
    forall b | FIRST <= b < c ensures b in data { assert s[b - FIRST] == b; }
    assert FreeSet(f, c) + (data - FreeSet(f, c)) == data;
  }

  lemma {:induction false} LengthsPositive(cs: seq<seq<int>>)
    ensures Lengths(cs) >= 0
  {
    if cs != [] { LengthsPositive(cs[..|cs| - 1]); }
  }

  lemma FreeStep(d: Disk, c: int, k: nat)
    requires Good(d, c) && k < |d.files|
    ensures var (code, d') := Step(d, c, FreeCall(k)); code == READY && Good(d', c)
  {
    var ch := d.files[k];
    assert ch != [] && IsChain(d.f, c, ch);
    FreeGood(d.f, c, ch);
    LengthsDrop(d.files, k);
    LengthsPositive(Drop(d.files, k));
    PartitionDrop(d.f, FreeBlock(d.f, c, true, ch[0]).1, c, d.files, k);
  }

  ghost predicate Allowed(d: Disk, c: int, calls: seq<Call>)
    requires Blocks(c)
    decreases |calls|
  {
    calls != [] ==> Table(d.f) && Enabled(d, calls[0]) && Allowed(Step(d, c, calls[0]).1, c, calls[1..])
  }

  ghost function Run(d: Disk, c: int, calls: seq<Call>): Disk
    requires Blocks(c) && Allowed(d, c, calls)
    decreases |calls|
  {
    if calls == [] then d else Run(Step(d, c, calls[0]).1, c, calls[1..])
  }

  /** After any run of allocations and frees of files: every data block is free or in exactly one file, the free count
      is true, free blocks and file blocks make up the card, and the mount verifier accepts the table. */
  lemma {:induction false} RunGood(d: Disk, c: int, calls: seq<Call>)
    requires Good(d, c) && Allowed(d, c, calls)
    ensures Good(Run(d, c, calls), c)
    decreases |calls|
  {
    if calls != [] {
      StepGood(d, c, calls[0]);
      RunGood(Step(d, c, calls[0]).1, c, calls[1..]);
    }
  }

  /** A formatted card. */
  function Blank(c: int): seq<int> {
    Update(seq(ENTRIES, i => if i == FREE_BLOCKS then c - FIRST else if i == LAST_SLOT then 4 else 0))
  }

  lemma BlankGood(c: int)
    requires Blocks(c)
    ensures Good(Disk(Blank(c), []), c)
  {
    var f := seq(ENTRIES, i => if i == FREE_BLOCKS then c - FIRST else if i == LAST_SLOT then 4 else 0);
    ScanAll(f, c);
    UpdateAccepted(f, c);
  }

  lemma ScanAll(f: seq<int>, c: int)
    requires |f| == ENTRIES && Blocks(c) && forall b :: ValidNo(b, c) ==> f[b] == 0
    ensures |FreeSet(f, c)| == c - FIRST
  {
    var s := seq(c - FIRST, i => i + FIRST);
    forall b ensures b in s <==> b in FreeSet(f, c) {
      if ValidNo(b, c) { assert s[b - FIRST] == b; }
    }
    LengthIsCount(s, FreeSet(f, c));
  }
}
