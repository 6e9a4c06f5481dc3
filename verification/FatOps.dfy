/** Allocating and freeing chains of blocks, and what the two keep. */
module FatOps {
  import opened Fat

  const READY: int := 0
  const NO_CARD: int := -3
  const BROKEN: int := -6
  const INS_SPACE: int := -9

  // ----- checksums

  function WordSum(w: seq<int>): int {
    if w == [] then 0 else WordSum(w[..|w| - 1]) + w[|w| - 1]
  }

  /** The sum of the complements. */
  function InvSum(w: seq<int>): int {
    if w == [] then 0 else InvSum(w[..|w| - 1]) + (0xFFFF - w[|w| - 1])
  }

  function NoFfff(x: int): int { if x == 0xFFFF then 0 else x }

  /** Both checksums of a run of words; 0xFFFF is stored as 0. */
  function CheckSums(w: seq<int>): (int, int) {
    (NoFfff(WordSum(w) % WORD), NoFfff(InvSum(w) % WORD))
  }

  lemma {:induction false} InvIsComplement(w: seq<int>)
    ensures InvSum(w) == 0xFFFF * |w| - WordSum(w)
  {
    if w != [] { InvIsComplement(w[..|w| - 1]); }
  }

  function Sum(w: seq<int>): int {
    if w == [] then 0 else w[0] + Sum(w[1..])
  }

  lemma {:induction false} SumFromFront(w: seq<int>)
    ensures Sum(w) == WordSum(w)
    decreases |w|
  {
    if w != [] {
      var n := |w| - 1;
      SumFromFront(w[1..]);
      if n > 0 {
        SumFromFront(w[..n]);
        SumFromFront(w[1..][..n - 1]);
        assert w[1..][..n - 1] == w[..n][1..] && w[1..][n - 1] == w[n] && w[..n][0] == w[0];
      }
    }
  }

  /** The first checksum is the sum of the words, the second that of their complements, both modulo 65536 and with 65535
      written as 0. */
  lemma CheckSumsAre(w: seq<int>)
    ensures var (a, b), s, c := CheckSums(w), Sum(w) % 65536, (65535 * |w| - Sum(w)) % 65536;
      a == (if s == 65535 then 0 else s) && b == (if c == 65535 then 0 else c)
  {
    SumFromFront(w);
    InvIsComplement(w);
  }

  /** An update with its counter: the counter moves on by one, modulo 65536, the checksums are those of the new words,
      and nothing else changes. */
  lemma UpdateWords(f: seq<int>)
    requires |f| == ENTRIES
    ensures var g := Update(f);
      && g[2] == (f[2] + 1) % 65536 && (g[0], g[1]) == CheckSums(g[2..])
      && forall i :: 3 <= i < ENTRIES ==> g[i] == f[i]
  {
    var h := f[CHECK_CODE := (f[CHECK_CODE] + 1) % WORD];
    assert Update(f)[CHECK_CODE..] == h[CHECK_CODE..];
  }

  lemma ModDiff(a: int, b: int)
    ensures (a % WORD == b % WORD) <==> (a - b) % WORD == 0
  {
  }

  /** Two blocks of 4094 words share both checksums exactly when their sums agree modulo 2^16. */
  lemma ChecksumsDecideSum(w: seq<int>, v: seq<int>)
    requires |w| == |v| == ENTRIES - 2
    ensures CheckSums(w) == CheckSums(v) <==> WordSum(w) % WORD == WordSum(v) % WORD
  {
    InvIsComplement(w);
    InvIsComplement(v);
    InvMod(WordSum(w), 0xFFFF * 4094);
    InvMod(WordSum(v), 0xFFFF * 4094);
  }

  lemma InvMod(x: int, k: int)
    requires k == 0xFFFF * 4094
    ensures (k - x) % WORD == (61442 - x % WORD) % WORD
  {
    assert k == 4093 * WORD + 61442;
    var q, r := x / WORD, x % WORD;
    assert x == q * WORD + r;
    assert k - x == (4093 - q) * WORD + (61442 - r);
    ModShift(61442 - r, 4093 - q);
  }

  lemma ModShift(a: int, q: int)
    ensures (q * WORD + a) % WORD == a % WORD
  {
  }

  lemma {:induction false} SumSplit(w: seq<int>, i: nat)
    requires i < |w|
    ensures WordSum(w) == WordSum(w[..i]) + w[i] + WordSum(w[i + 1..])
    decreases |w|
  {
    var n := |w| - 1;
    if i == n {
      assert w[i + 1..] == [];
    } else {
      SumSplit(w[..n], i);
      assert w[..n][..i] == w[..i] && w[..n][i + 1..] == w[i + 1..][..n - i - 1];
      assert w[i + 1..][n - i - 1] == w[n];
    }
  }

  /** Any change of a single word changes the checksums. */
  lemma OneWordDetected(w: seq<int>, i: nat, x: int)
    requires |w| == ENTRIES - 2 && i < |w| && 0 <= w[i] < WORD && 0 <= x < WORD && x != w[i]
    ensures CheckSums(w[i := x]) != CheckSums(w)
  {
    SumSplit(w, i);
    SumSplit(w[i := x], i);
    assert w[i := x][..i] == w[..i] && w[i := x][i + 1..] == w[i + 1..];
    ChecksumsDecideSum(w[i := x], w);
    ModDiff(WordSum(w[i := x]), WordSum(w));
  }

  /** The block update that ends every successful operation: the counter advances and the checksums are renewed. */
  function Update(f: seq<int>): (g: seq<int>)
    requires |f| == ENTRIES
    ensures |g| == ENTRIES
  {
    var h := f[CHECK_CODE := (f[CHECK_CODE] + 1) % WORD];
    var (a, b) := CheckSums(h[CHECK_CODE..]);
    h[CHECKSUM := a][CHECKSUM_INV := b]
  }

  /** What the mount verifier asks of one copy of the table. */
  ghost predicate Accepts(f: seq<int>, c: int)
    requires |f| == ENTRIES && Blocks(c)
  {
    (f[CHECKSUM], f[CHECKSUM_INV]) == CheckSums(f[CHECK_CODE..]) && |FreeSet(f, c)| == f[FREE_BLOCKS]
  }

  lemma UpdateAccepted(f: seq<int>, c: int)
    requires Table(f) && Blocks(c) && |FreeSet(f, c)| == f[FREE_BLOCKS]
    ensures Table(Update(f)) && Accepts(Update(f), c) && FreeSet(Update(f), c) == FreeSet(f, c)
    ensures forall b :: FREE_BLOCKS <= b < ENTRIES ==> Update(f)[b] == f[b]
  {
    var h := f[CHECK_CODE := (f[CHECK_CODE] + 1) % WORD];
    assert Update(f)[CHECK_CODE..] == h[CHECK_CODE..];
    assert FreeSet(Update(f), c) == FreeSet(f, c) by {
      assert forall b :: b in FreeSet(Update(f), c) <==> b in FreeSet(f, c);
    }
  }

  /** An accepted table with any one word changed is no longer accepted. */
  lemma CorruptionRejected(f: seq<int>, c: int, i: int, x: int)
    requires Table(f) && Blocks(c) && Accepts(f, c) && 0 <= i < ENTRIES && 0 <= x < WORD && x != f[i]
    ensures !Accepts(f[i := x], c)
  {
    if i >= CHECK_CODE {
      assert f[i := x][CHECK_CODE..] == f[CHECK_CODE..][i - CHECK_CODE := x];
      OneWordDetected(f[CHECK_CODE..], i - CHECK_CODE, x);
    } else {
      assert f[i := x][CHECK_CODE..] == f[CHECK_CODE..];
    }
  }

  // ----- allocation

  /** All the free blocks, in circular order after the last one handed out. */
  ghost function Available(f: seq<int>, c: int): (r: seq<int>)
    requires Table(f) && Blocks(c)
    ensures NoDup(r) && |r| == |FreeSet(f, c)| && (forall b :: b in r <==> b in FreeSet(f, c))
    ensures forall i :: 0 <= i < |r| ==> FIRST <= r[i] < c && f[r[i]] == 0
  {
    var s := Succ(f[LAST_SLOT], c);
    var r := Scan(f, s, c, c - FIRST);
    ScanMembers(f, s, c, c - FIRST);
    ScanFindsAll(f, s, c);
    r
  }

  /** How many blocks block `b` comes after block `last` in the circle of data blocks; from the start of the circle when
      `last` is not one of them. */
  function Ahead(c: int, last: int, b: int): int {
    if !(FIRST <= last < c) then b - FIRST + 1 else if b > last then b - last else b - last + c - FIRST
  }

  /** The blocks of `r` come nearer first, and none is further than `k`. */
  ghost predicate Nearer(c: int, last: int, r: seq<int>, k: int) {
    && (forall i :: 0 <= i < |r| ==> Ahead(c, last, r[i]) <= k)
    && (forall i, j :: 0 <= i < j < |r| ==> Ahead(c, last, r[i]) < Ahead(c, last, r[j]))
  }

  lemma NearerNext(c: int, last: int, r: seq<int>, k: int, b: int)
    requires Nearer(c, last, r, k - 1) && Ahead(c, last, b) == k
    ensures Nearer(c, last, r, k) && Nearer(c, last, r + [b], k)
  {
    hide Ahead;
  }

  lemma VisitAhead(c: int, last: int, k: int)
    requires Blocks(c) && 0 <= last < WORD && 0 < k <= c - FIRST
    ensures Ahead(c, last, Visit(Succ(last, c), c, k - 1)) == k
  {
  }

  lemma {:induction false} ScanAhead(f: seq<int>, c: int, k: int)
    requires Table(f) && Blocks(c) && 0 <= k <= c - FIRST
    ensures Nearer(c, f[LAST_SLOT], Scan(f, Succ(f[LAST_SLOT], c), c, k), k)
    decreases k
  {
    if k > 0 {
      var s, l := Succ(f[LAST_SLOT], c), f[LAST_SLOT];
      var q, b := Scan(f, s, c, k - 1), Visit(s, c, k - 1);
      assert Scan(f, s, c, k) == if f[b] == 0 then q + [b] else q;
      hide Scan, Nearer, Visit, Succ, Ahead;
      ScanAhead(f, c, k - 1);
      VisitAhead(c, l, k);
      NearerNext(c, l, q, k, b);
    }
  }

  /** The free blocks are taken nearest first, going round from the one handed out last. */
  lemma NearestFirst(f: seq<int>, c: int)
    requires Table(f) && Blocks(c)
    ensures var r := Available(f, c);
      && (forall b :: b in r <==> FIRST <= b < c && f[b] == 0)
      && forall i, j :: 0 <= i < j < |r| ==> Ahead(c, f[LAST_SLOT], r[i]) < Ahead(c, f[LAST_SLOT], r[j])
  {
    ScanAhead(f, c, c - FIRST);
    assert Available(f, c) == Scan(f, Succ(f[LAST_SLOT], c), c, c - FIRST);
  }

  /** The code, the table and the first block of the new chain. A table whose free count is too high runs out in mid
      course: every free block is then linked, and nothing else is updated. */
  ghost function Alloc(f: seq<int>, c: int, attached: bool, n: nat): (int, seq<int>, int)
    requires Table(f) && Blocks(c)
  {
    var all := Available(f, c);
    if !attached then (NO_CARD, f, END)
    else if f[FREE_BLOCKS] < n then (INS_SPACE, f, END)
    else if n > |all| then (BROKEN, Link(f[FREE_BLOCKS := f[FREE_BLOCKS] - n], all), END)
    else (READY, Update(Taken(f, n, all[..n])), if n == 0 then END else all[0])
  }

  /** The table with `n` blocks less free, those of `ch`, now a chain. */
  function Taken(f: seq<int>, n: nat, ch: seq<int>): seq<int>
    requires |f| == ENTRIES && forall i :: 0 <= i < |ch| ==> 0 <= ch[i] < |f|
  {
    var g := Link(f[FREE_BLOCKS := f[FREE_BLOCKS] - n], ch);
    if ch == [] then g else g[LAST_SLOT := ch[|ch| - 1]]
  }

  lemma TakenAt(f: seq<int>, c: int, n: nat, ch: seq<int>)
    requires Table(f) && Blocks(c) && NoDup(ch) && n <= f[FREE_BLOCKS]
    requires forall i :: 0 <= i < |ch| ==> FIRST <= ch[i] < c
    ensures var g := Taken(f, n, ch);
      && Table(g) && IsChain(g, c, ch)
      && (forall b :: ValidNo(b, c) && b !in ch ==> g[b] == f[b])
      && g[FREE_BLOCKS] == f[FREE_BLOCKS] - n && g[LAST_SLOT] == if ch == [] then f[LAST_SLOT] else ch[|ch| - 1]
  {
    var g0 := f[FREE_BLOCKS := f[FREE_BLOCKS] - n];
    var g := Taken(f, n, ch);
    LinkAt(g0, ch);
    assert FREE_BLOCKS !in ch && LAST_SLOT !in ch;
    forall i | 0 <= i < |ch| ensures g[ch[i]] == After(ch, i) { assert Link(g0, ch)[ch[i]] == After(ch, i); }
    forall b | 0 <= b < ENTRIES ensures 0 <= g[b] < WORD {
      if b in ch { var i :| 0 <= i < |ch| && ch[i] == b; assert g[ch[i]] == After(ch, i); }
    }
  }

  lemma TakenFreeSet(f: seq<int>, c: int, n: nat, ch: seq<int>)
    requires Table(f) && Blocks(c) && NoDup(ch) && |ch| == n <= f[FREE_BLOCKS]
    requires forall i :: 0 <= i < |ch| ==> FIRST <= ch[i] < c && f[ch[i]] == 0
    ensures var g, taken := Taken(f, n, ch), set b | b in ch;
      Table(g) && FreeSet(g, c) == FreeSet(f, c) - taken && |FreeSet(g, c)| == |FreeSet(f, c)| - n
  {
    var g, taken := Taken(f, n, ch), set b | b in ch;
    TakenAt(f, c, n, ch);
    forall b ensures b in FreeSet(g, c) <==> b in FreeSet(f, c) && b !in ch {
      if b in ch { var i :| 0 <= i < |ch| && ch[i] == b; assert g[ch[i]] == After(ch, i); }
    }
    LengthIsCount(ch, taken);
    assert taken <= FreeSet(f, c);
  }

  lemma UpdatedChain(f: seq<int>, c: int, ch: seq<int>)
    requires Table(f) && Blocks(c) && IsChain(f, c, ch)
    ensures IsChain(Update(f), c, ch)
  {
    forall i | 0 <= i < |ch| ensures Update(f)[ch[i]] == After(ch, i) { assert f[ch[i]] == After(ch, i); }
  }

  /** With a true free count, allocation fails only for want of blocks, and then changes nothing. */
  lemma AllocCode(f: seq<int>, c: int, n: nat)
    requires Table(f) && Blocks(c) && |FreeSet(f, c)| == f[FREE_BLOCKS]
    ensures var (code, g, start) := Alloc(f, c, true, n);
      && code == (if n > |FreeSet(f, c)| then INS_SPACE else READY)
      && (code != READY ==> g == f)
      && (code == READY ==>
         g == Update(Taken(f, n, Available(f, c)[..n])) && start == if n == 0 then END else Available(f, c)[0])
  {
  }

  lemma TakenUpdated(f: seq<int>, c: int, n: nat, ch: seq<int>)
    requires Table(f) && Blocks(c) && NoDup(ch) && |ch| == n <= f[FREE_BLOCKS] && |FreeSet(f, c)| == f[FREE_BLOCKS]
    requires forall i :: 0 <= i < |ch| ==> FIRST <= ch[i] < c && f[ch[i]] == 0
    ensures var g := Update(Taken(f, n, ch));
      && IsChain(g, c, ch)
      && (forall b :: ValidNo(b, c) && b !in ch ==> g[b] == f[b])
      && Table(g) && Accepts(g, c) && FreeSet(g, c) == FreeSet(f, c) - (set b | b in ch)
      && g[FREE_BLOCKS] == f[FREE_BLOCKS] - n && g[LAST_SLOT] == if ch == [] then f[LAST_SLOT] else ch[|ch| - 1]
  {
    var g := Taken(f, n, ch);
    TakenAt(f, c, n, ch);
    TakenFreeSet(f, c, n, ch);
    UpdateAccepted(g, c);
    UpdatedChain(g, c, ch);
    hide Taken, Update, IsChain, Table, FreeSet;
  }

  lemma AvailablePrefix(f: seq<int>, c: int, n: nat)
    requires Table(f) && Blocks(c) && n <= |FreeSet(f, c)|
    ensures var ch := Available(f, c)[..n];
      && NoDup(ch) && |ch| == n && (n > 0 ==> ch[0] == Available(f, c)[0])
      && forall i :: 0 <= i < |ch| ==> FIRST <= ch[i] < c && f[ch[i]] == 0
  {
  }

  /** It hands out exactly the first `n` free blocks in circular order after the last slot, as one chain, touches no
      other data block, and leaves a table that the mount verifier accepts. */
  lemma AllocGood(f: seq<int>, c: int, n: nat)
    requires Table(f) && Blocks(c) && |FreeSet(f, c)| == f[FREE_BLOCKS] && n <= |FreeSet(f, c)|
    ensures var (code, g, start) := Alloc(f, c, true, n);
      var ch := Available(f, c)[..n];
      && code == READY && IsChain(g, c, ch) && start == (if n == 0 then END else ch[0])
      && (forall b :: ValidNo(b, c) && b !in ch ==> g[b] == f[b])
      && Table(g) && Accepts(g, c) && FreeSet(g, c) == FreeSet(f, c) - (set b | b in ch)
      && g[FREE_BLOCKS] == f[FREE_BLOCKS] - n && g[LAST_SLOT] == if n == 0 then f[LAST_SLOT] else ch[n - 1]
  {
    hide Alloc, Taken, Update, Table, Accepts, IsChain, FreeSet, NoDup, Available;
    AllocCode(f, c, n);
    AvailablePrefix(f, c, n);
    TakenUpdated(f, c, n, Available(f, c)[..n]);
  }

  // ----- freeing

  ghost function UsedSet(f: seq<int>, c: int): set<int>
    requires |f| == ENTRIES && Blocks(c)
  {
    set b | FIRST <= b < c && f[b] != 0
  }

  /** The table with block `b` free and counted as such. */
  function Freed(f: seq<int>, b: int): seq<int>
    requires |f| == ENTRIES && FIRST <= b < ENTRIES
  {
    f[b := 0][FREE_BLOCKS := (f[FREE_BLOCKS] + 1) % WORD]
  }

  lemma FreedShrinks(f: seq<int>, c: int, b: int)
    requires |f| == ENTRIES && Blocks(c) && ValidNo(b, c)
    ensures f[b] != 0 ==> |UsedSet(Freed(f, b), c)| == |UsedSet(f, c)| - 1
    ensures f[b] == 0 ==> UsedSet(Freed(f, b), c) == UsedSet(f, c)
  {
    assert UsedSet(Freed(f, b), c) == UsedSet(f, c) - {b};
  }

  /** Follows the links from `b`, freeing each block, up to the end mark; false when a link leads nowhere.
      Ends on every table, circular chains included: a block is in use at most once. */
  ghost function Walk(f: seq<int>, c: int, b: int): (r: (seq<int>, bool))
    requires |f| == ENTRIES && Blocks(c)
    ensures |r.0| == ENTRIES
    decreases |UsedSet(f, c)| + (if ValidNo(b, c) then 1 else 0)
  {
    if b == END then (f, true)
    else if !ValidNo(b, c) then (f, false)
    else
      FreedShrinks(f, c, b);
      Walk(Freed(f, b), c, f[b])
  }

  ghost function FreeBlock(f: seq<int>, c: int, attached: bool, b: int): (int, seq<int>)
    requires |f| == ENTRIES && Blocks(c)
  {
    if !attached then (NO_CARD, f) else
    var (g, ok) := Walk(f, c, b);
    if ok then (READY, Update(g)) else (BROKEN, g)
  }

  /** All the blocks of `ch` free, and counted. */
  function Cleared(f: seq<int>, ch: seq<int>): (g: seq<int>)
    requires |f| == ENTRIES && forall i :: 0 <= i < |ch| ==> FIRST <= ch[i] < ENTRIES
    ensures |g| == ENTRIES
    decreases |ch|
  {
    if ch == [] then f else Cleared(Freed(f, ch[0]), ch[1..])
  }

  lemma {:induction false} ClearedAt(f: seq<int>, ch: seq<int>)
    requires Table(f) && NoDup(ch) && forall i :: 0 <= i < |ch| ==> FIRST <= ch[i] < ENTRIES
    ensures var g := Cleared(f, ch);
      && Table(g) && g[FREE_BLOCKS] == (f[FREE_BLOCKS] + |ch|) % WORD
      && (forall b :: 0 <= b < ENTRIES && b != FREE_BLOCKS ==> g[b] == if b in ch then 0 else f[b])
    decreases |ch|
  {
    if ch != [] {
      var t := ch[1..];
      assert ch == [ch[0]] + t;
      ClearedAt(Freed(f, ch[0]), t);
    }
  }

  lemma ChainTail(f: seq<int>, c: int, ch: seq<int>)
    requires |f| == ENTRIES && Blocks(c) && IsChain(f, c, ch) && ch != []
    ensures IsChain(Freed(f, ch[0]), c, ch[1..]) && f[ch[0]] == After(ch, 0)
  {
    var t := ch[1..];
    forall i | 0 <= i < |t| ensures Freed(f, ch[0])[t[i]] == After(t, i) { assert f[ch[i + 1]] == After(ch, i + 1); }
  }

  /** Freeing a file clears exactly its blocks. */
  lemma {:induction false} WalkChain(f: seq<int>, c: int, ch: seq<int>)
    requires |f| == ENTRIES && Blocks(c) && IsChain(f, c, ch) && ch != []
    ensures Walk(f, c, ch[0]) == (Cleared(f, ch), true)
    decreases |ch|
  {
    ChainTail(f, c, ch);
    if |ch| > 1 { WalkChain(Freed(f, ch[0]), c, ch[1..]); }
  }

  lemma ChainCons(f: seq<int>, c: int, b: int, t: seq<int>)
    requires |f| == ENTRIES && Blocks(c) && ValidNo(b, c) && IsChain(Freed(f, b), c, t)
    requires f[b] == if t == [] then END else t[0]
    ensures IsChain(f, c, [b] + t)
  {
    var ch := [b] + t;
    forall i | 0 <= i < |t| ensures t[i] != b { assert Freed(f, b)[t[i]] == After(t, i); }
    forall i | 0 <= i < |ch| ensures f[ch[i]] == After(ch, i) {
      if i > 0 { assert Freed(f, b)[t[i - 1]] == After(t, i - 1); }
    }
  }

  lemma {:induction false} WalkFinds(f: seq<int>, c: int, b: int) returns (ch: seq<int>)
    requires |f| == ENTRIES && Blocks(c) && Walk(f, c, b).1
    ensures IsChain(f, c, ch) && b == if ch == [] then END else ch[0]
    decreases |UsedSet(f, c)| + (if ValidNo(b, c) then 1 else 0)
  {
    if b == END {
      ch := [];
    } else {
      FreedShrinks(f, c, b);
      var t := WalkFinds(Freed(f, b), c, f[b]);
      ChainCons(f, c, b, t);
      ch := [b] + t;
    }
  }

  /** Freeing succeeds exactly on the end mark and on the first block of a well-formed chain, for every table. */
  lemma FreeOkIff(f: seq<int>, c: int, b: int)
    requires |f| == ENTRIES && Blocks(c)
    ensures FreeBlock(f, c, true, b).0 == READY <==>
      b == END || exists ch :: ch != [] && ch[0] == b && IsChain(f, c, ch)
  {
    if Walk(f, c, b).1 {
      var ch := WalkFinds(f, c, b);
    } else if exists ch :: ch != [] && ch[0] == b && IsChain(f, c, ch) {
      var ch :| ch != [] && ch[0] == b && IsChain(f, c, ch);
      WalkChain(f, c, ch);
    }
  }
}
