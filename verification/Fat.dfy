/** The file allocation table of a memory card, as a sequence of 4096 words of 16 bits. */
module Fat {

  const CHECKSUM: int := 0
  const CHECKSUM_INV: int := 1
  const CHECK_CODE: int := 2
  const FREE_BLOCKS: int := 3
  const LAST_SLOT: int := 4
  /** The first data block; the blocks below it belong to the system. */
  const FIRST: int := 5
  const ENTRIES: int := 4096
  const END: int := 0xFFFF
  const WORD: int := 0x1_0000

  ghost predicate Table(f: seq<int>) {
    |f| == ENTRIES && forall i :: 0 <= i < ENTRIES ==> 0 <= f[i] < WORD
  }

  /** `c` is a number of blocks that a card can have. */
  predicate Blocks(c: int) { FIRST < c <= ENTRIES }

  /** The data blocks not in use. */
  ghost function FreeSet(f: seq<int>, c: int): set<int>
    requires |f| == ENTRIES && Blocks(c)
  {
    set b | FIRST <= b < c && f[b] == 0
  }

  // ----- the circular scan

  predicate ValidNo(b: int, c: int) { FIRST <= b < c }

  /** The block after `b`, skipping the system area. */
  function Succ(b: int, c: int): (r: int)
    requires 0 <= b < WORD && Blocks(c)
    ensures ValidNo(r, c)
  {
    if ValidNo((b + 1) % WORD, c) then (b + 1) % WORD else FIRST
  }

  /** The `k`-th block of the scan that starts at block `s`. */
  function Visit(s: int, c: int, k: int): int {
    if s + k < c then s + k else s + k - (c - FIRST)
  }

  lemma VisitNext(s: int, c: int, k: int)
    requires Blocks(c) && ValidNo(s, c) && 0 <= k && k + 1 < c - FIRST
    ensures ValidNo(Visit(s, c, k), c) && Succ(Visit(s, c, k), c) == Visit(s, c, k + 1)
  {
  }

  /** The scan meets every data block once. */
  lemma VisitOnce(s: int, c: int, b: int)
    requires Blocks(c) && ValidNo(s, c) && ValidNo(b, c)
    ensures var k := if b >= s then b - s else b - s + (c - FIRST); 0 <= k < c - FIRST && Visit(s, c, k) == b
    ensures forall j, k :: 0 <= j < k < c - FIRST ==> Visit(s, c, j) != Visit(s, c, k)
  {
  }

  /** The free blocks among the first `k` of the scan, in scan order. */
  function Scan(f: seq<int>, s: int, c: int, k: int): (r: seq<int>)
    requires |f| == ENTRIES && Blocks(c) && ValidNo(s, c) && 0 <= k <= c - FIRST
    ensures forall i :: 0 <= i < |r| ==> FIRST <= r[i] < c && f[r[i]] == 0
    decreases k
  {
    if k == 0 then [] else
    var b := Visit(s, c, k - 1);
    Scan(f, s, c, k - 1) + (if f[b] == 0 then [b] else [])
  }

  ghost predicate NoDup(s: seq<int>) {
    forall i, j :: 0 <= i < j < |s| ==> s[i] != s[j]
  }

  lemma {:induction false} ScanMembers(f: seq<int>, s: int, c: int, k: int)
    requires |f| == ENTRIES && Blocks(c) && ValidNo(s, c) && 0 <= k <= c - FIRST
    ensures NoDup(Scan(f, s, c, k))
    ensures forall b :: b in Scan(f, s, c, k) <==> exists j :: 0 <= j < k && Visit(s, c, j) == b && f[b] == 0
    decreases k
  {
    if k > 0 {
      ScanMembers(f, s, c, k - 1);
      var b := Visit(s, c, k - 1);
      VisitOnce(s, c, b);
      assert b !in Scan(f, s, c, k - 1);
    }
  }

  lemma {:induction false} LengthIsCount(s: seq<int>, t: set<int>)
    requires NoDup(s) && forall b :: b in s <==> b in t
    ensures |s| == |t|
    decreases |s|
  {
    if s != [] {
      var b, r := s[|s| - 1], s[..|s| - 1];
      assert s == r + [b];
      forall x ensures x in r <==> x in t - {b} {
        if x in r { assert x != b by { var i :| 0 <= i < |r| && r[i] == x; } }
      }
      LengthIsCount(r, t - {b});
    } else {
      assert forall b :: b in t ==> b in s;
    }
  }

  /** A whole round of the scan finds all the free blocks. */
  lemma ScanFindsAll(f: seq<int>, s: int, c: int)
    requires |f| == ENTRIES && Blocks(c) && ValidNo(s, c)
    ensures forall b :: b in Scan(f, s, c, c - FIRST) <==> b in FreeSet(f, c)
    ensures |Scan(f, s, c, c - FIRST)| == |FreeSet(f, c)|
  {
    var r := Scan(f, s, c, c - FIRST);
    ScanMembers(f, s, c, c - FIRST);
    forall b ensures b in r <==> b in FreeSet(f, c) {
      if b in FreeSet(f, c) { VisitOnce(s, c, b); }
    }
    LengthIsCount(r, FreeSet(f, c));
  }

  lemma {:induction false} ScanPrefix(f: seq<int>, s: int, c: int, j: int, k: int)
    requires |f| == ENTRIES && Blocks(c) && ValidNo(s, c) && 0 <= j <= k <= c - FIRST
    ensures |Scan(f, s, c, j)| <= |Scan(f, s, c, k)| && Scan(f, s, c, j) == Scan(f, s, c, k)[..|Scan(f, s, c, j)|]
    decreases k
  {
    if j < k { ScanPrefix(f, s, c, j, k - 1); }
  }

  // ----- chains

  /** The table with the blocks of `ch` linked, one to the next, the last to the end mark. */
  function Link(f: seq<int>, ch: seq<int>): (g: seq<int>)
    requires forall i :: 0 <= i < |ch| ==> 0 <= ch[i] < |f|
    ensures |g| == |f|
  {
    if ch == [] then f else
    var n := |ch| - 1;
    var g := Link(f, ch[..n]);
    (if n > 0 then g[ch[n - 1] := ch[n]] else g)[ch[n] := END]
  }

  function After(ch: seq<int>, i: int): int
    requires 0 <= i < |ch|
  {
    if i + 1 < |ch| then ch[i + 1] else END
  }

  lemma {:induction false} LinkAt(f: seq<int>, ch: seq<int>)
    requires NoDup(ch) && forall i :: 0 <= i < |ch| ==> 0 <= ch[i] < |f|
    ensures forall i :: 0 <= i < |ch| ==> Link(f, ch)[ch[i]] == After(ch, i)
    ensures forall b :: 0 <= b < |f| && b !in ch ==> Link(f, ch)[b] == f[b]
    decreases |ch|
  {
    if ch != [] {
      var n := |ch| - 1;
      LinkAt(f, ch[..n]);
      assert ch == ch[..n] + [ch[n]];
      forall i | 0 <= i < |ch| ensures Link(f, ch)[ch[i]] == After(ch, i) {
        if i < n { assert ch[..n][i] == ch[i]; assert Link(f, ch[..n])[ch[i]] == After(ch[..n], i); }
      }
    }
  }

  /** `ch` is a file: distinct data blocks, each naming the next, the last one the end mark. */
  ghost predicate IsChain(f: seq<int>, c: int, ch: seq<int>)
    requires |f| == ENTRIES && Blocks(c)
  {
    && NoDup(ch) && (forall i :: 0 <= i < |ch| ==> FIRST <= ch[i] < c)
    && (forall i {:trigger After(ch, i)} {:trigger f[ch[i]]} :: 0 <= i < |ch| ==> f[ch[i]] == After(ch, i))
  }

  /** Every data block is free or on exactly one of the chains. */
  ghost predicate Partition(f: seq<int>, c: int, cs: seq<seq<int>>)
    requires |f| == ENTRIES && Blocks(c)
  {
    && (forall i :: 0 <= i < |cs| ==> cs[i] != [] && IsChain(f, c, cs[i]))
    && (forall i, j, b :: 0 <= i < |cs| && 0 <= j < |cs| && b in cs[i] && b in cs[j] ==> i == j)
    && (forall b :: ValidNo(b, c) && f[b] != 0 ==> exists i :: 0 <= i < |cs| && b in cs[i])
  }
}
