/** One heap of the arena: its free list, kept sorted and coalesced, and its allocated cells. */
module Blocks {

  /** A cell: its address and its length, header included. */
  datatype Block = Block(at: nat, len: nat)
  {
    function End(): nat { at + len }
    predicate Holds(x: int) { at <= x < at + len }
  }

  /** `size` is -1 when the descriptor is not in use. */
  datatype Heap = Heap(size: int, free: seq<Block>, used: seq<Block>)
  {
    predicate Live() { size >= 0 }
  }

  const HEADER: nat := 0x20
  const MIN_OBJECT: nat := 0x40
  /** The largest request the signed fit test handles. */
  const MAX_REQUEST: nat := 0x7FFF_FFC0
  const WORD: int := 0x1_0000_0000

  function RoundUp(x: int): int { (x + 31) / 32 * 32 % WORD }
  function RoundDown(x: int): int { x / 32 * 32 }
  function Signed(x: int): int { if x < 0x8000_0000 then x else x - WORD }

  // ----- lists of blocks

  ghost predicate Covers(s: seq<Block>, x: int) {
    exists i :: 0 <= i < |s| && s[i].Holds(x)
  }

  /** Sorted, with a gap after every block: each block is a maximal interval. */
  ghost predicate Canon(s: seq<Block>) {
    && (forall i :: 0 <= i < |s| ==> s[i].len > 0)
    && (forall i, j :: 0 <= i < j < |s| ==> s[i].End() < s[j].at)
  }

  ghost predicate Apart(b: Block, c: Block) {
    b.End() <= c.at || c.End() <= b.at
  }

  /** `b` overlaps no block of `s`. */
  ghost predicate Clear(s: seq<Block>, b: Block) {
    forall i :: 0 <= i < |s| ==> Apart(s[i], b)
  }

  function Total(s: seq<Block>): (n: nat) {
    if s == [] then 0 else Total(s[..|s| - 1]) + s[|s| - 1].len
  }

  /** What the blocks can hold besides their headers. */
  function Room(s: seq<Block>): int {
    Total(s) - HEADER * |s|
  }

  lemma {:induction false} TotalAppend(s: seq<Block>, t: seq<Block>)
    ensures Total(s + t) == Total(s) + Total(t)
  {
    if t == [] {
      assert s + t == s;
    } else {
      TotalAppend(s, t[..|t| - 1]);
      assert (s + t)[..|s + t| - 1] == s + t[..|t| - 1];
    }
  }

  // ----- the canonical form is determined by the bytes

  lemma FirstByte(s: seq<Block>, x: int)
    requires Canon(s) && s != [] && Covers(s, x)
    ensures s[0].at <= x
  {
    var i :| 0 <= i < |s| && s[i].Holds(x);
    if i > 0 { assert s[0].End() < s[i].at; }
  }

  lemma CoversTail(s: seq<Block>, x: int)
    requires Canon(s) && s != []
    ensures Covers(s[1..], x) <==> Covers(s, x) && s[0].End() <= x
  {
    if Covers(s[1..], x) {
      var i :| 0 <= i < |s| - 1 && s[1..][i].Holds(x);
      assert s[i + 1].Holds(x) && s[0].End() < s[i + 1].at;
    }
    if Covers(s, x) && s[0].End() <= x {
      var i :| 0 <= i < |s| && s[i].Holds(x);
      assert s[1..][i - 1].Holds(x);
    }
  }

  lemma CanonTail(s: seq<Block>)
    requires Canon(s) && s != []
    ensures Canon(s[1..])
  {
  }

  lemma HeadGap(s: seq<Block>)
    requires Canon(s) && s != []
    ensures !Covers(s, s[0].End())
  {
    forall i | 0 <= i < |s| ensures !s[i].Holds(s[0].End()) {
      if i > 0 { assert s[0].End() < s[i].at; }
    }
  }

  lemma HeadCovered(s: seq<Block>, x: int)
    requires Canon(s)
    ensures s != [] && s[0].Holds(x) ==> Covers(s, x)
  {
  }

  lemma HeadLeast(s: seq<Block>, t: seq<Block>)
    requires Canon(s) && Canon(t) && s != []
    requires forall x :: Covers(s, x) <==> Covers(t, x)
    ensures t != [] && t[0].at <= s[0].at
  {
    HeadCovered(s, s[0].at);
    FirstByte(t, s[0].at);
  }

  lemma HeadLongest(s: seq<Block>, t: seq<Block>)
    requires Canon(s) && Canon(t) && s != [] && t != [] && s[0].at == t[0].at
    requires forall x :: Covers(s, x) <==> Covers(t, x)
    ensures t[0].len <= s[0].len
  {
    HeadGap(s);
    HeadCovered(t, s[0].End());
  }

  /** Two canonical lists of the same bytes are the same list. */
  lemma {:induction false} CanonUnique(s: seq<Block>, t: seq<Block>)
    requires Canon(s) && Canon(t)
    requires forall x :: Covers(s, x) <==> Covers(t, x)
    ensures s == t
    decreases |s|
  {
    if s == [] {
      HeadCovered(t, if t != [] then t[0].at else 0);
    } else {
      HeadLeast(s, t);
      HeadLeast(t, s);
      HeadLongest(s, t);
      HeadLongest(t, s);
      CanonTail(s);
      CanonTail(t);
      forall x ensures Covers(s[1..], x) <==> Covers(t[1..], x) {
        CoversTail(s, x);
        CoversTail(t, x);
      }
      CanonUnique(s[1..], t[1..]);
    }
  }

  // ----- freeing: insertion with coalescing on both sides

  /** How many leading blocks lie below address `a`. */
  function Place(s: seq<Block>, a: nat): (i: nat)
    ensures i <= |s|
    ensures forall j :: 0 <= j < i ==> s[j].at < a
    ensures i < |s| ==> a <= s[i].at
  {
    if s == [] || a <= s[0].at then 0 else 1 + Place(s[1..], a)
  }

  /** `b` together with the block after it, when they touch. */
  function WithNext(s: seq<Block>, i: nat, b: Block): (Block, seq<Block>)
    requires i <= |s|
  {
    if i < |s| && b.End() == s[i].at then (Block(b.at, b.len + s[i].len), s[i + 1..]) else (b, s[i..])
  }

  /** Address-sorted insertion of a freed block, merged with the neighbours it touches. */
  function Join(s: seq<Block>, b: Block): seq<Block> {
    var i := Place(s, b.at);
    var (c, rest) := WithNext(s, i, b);
    if i > 0 && s[i - 1].End() == b.at then s[..i - 1] + [Block(s[i - 1].at, s[i - 1].len + c.len)] + rest
    else s[..i] + [c] + rest
  }

  lemma PlaceClear(s: seq<Block>, b: Block)
    requires Canon(s) && Clear(s, b) && b.len > 0
    ensures var i := Place(s, b.at);
      && (forall j :: 0 <= j < i ==> s[j].End() <= b.at)
      && (forall j :: i <= j < |s| ==> b.End() <= s[j].at)
  {
    var i := Place(s, b.at);
    forall j | 0 <= j < i ensures s[j].End() <= b.at { assert Apart(s[j], b); }
    forall j | i <= j < |s| ensures b.End() <= s[j].at {
      assert Apart(s[j], b);
      if j > i { assert s[i].End() < s[j].at; }
    }
  }

  lemma CoversAppend(s: seq<Block>, t: seq<Block>, x: int)
    ensures Covers(s + t, x) <==> Covers(s, x) || Covers(t, x)
  {
    if Covers(s + t, x) {
      var i :| 0 <= i < |s + t| && (s + t)[i].Holds(x);
      assert i < |s| ==> s[i].Holds(x);
      assert i >= |s| ==> t[i - |s|].Holds(x);
    }
    if Covers(s, x) {
      var i :| 0 <= i < |s| && s[i].Holds(x);
      assert (s + t)[i].Holds(x);
    }
    if Covers(t, x) {
      var i :| 0 <= i < |t| && t[i].Holds(x);
      assert (s + t)[|s| + i].Holds(x);
    }
  }

  lemma CoversOne(b: Block, x: int)
    ensures Covers([b], x) <==> b.Holds(x)
  {
    if b.Holds(x) { assert [b][0].Holds(x); }
  }

  lemma CoversParts(s: seq<Block>, b: Block, t: seq<Block>, x: int)
    ensures Covers(s + [b] + t, x) <==> Covers(s, x) || b.Holds(x) || Covers(t, x)
  {
    CoversAppend(s + [b], t, x);
    CoversAppend(s, [b], x);
    CoversOne(b, x);
  }

  /** Joining adds exactly the bytes of the freed block. */
  lemma JoinCovers(s: seq<Block>, b: Block, x: int)
    ensures Covers(Join(s, b), x) <==> Covers(s, x) || b.Holds(x)
  {
    var i := Place(s, b.at);
    var (c, rest) := WithNext(s, i, b);
    assert Covers(s, x) <==> Covers(s[..i], x) || Covers(s[i..], x) by {
      assert s == s[..i] + s[i..];
      CoversAppend(s[..i], s[i..], x);
    }
    assert c.Holds(x) || Covers(rest, x) <==> b.Holds(x) || Covers(s[i..], x) by {
      if rest != s[i..] {
        assert s[i..] == [s[i]] + s[i + 1..];
        CoversAppend([s[i]], s[i + 1..], x);
        CoversOne(s[i], x);
      }
    }
    if i > 0 && s[i - 1].End() == b.at {
      CoversParts(s[..i - 1], Block(s[i - 1].at, s[i - 1].len + c.len), rest, x);
      assert s[..i] == s[..i - 1] + [s[i - 1]];
      CoversAppend(s[..i - 1], [s[i - 1]], x);
      CoversOne(s[i - 1], x);
    } else {
      CoversParts(s[..i], c, rest, x);
    }
  }

  lemma CanonParts(s: seq<Block>, b: Block, t: seq<Block>)
    requires Canon(s) && Canon(t) && b.len > 0
    requires forall i :: 0 <= i < |s| ==> s[i].End() < b.at
    requires forall i :: 0 <= i < |t| ==> b.End() < t[i].at
    ensures Canon(s + [b] + t)
  {
  }

  lemma NextGap(s: seq<Block>, b: Block)
    requires Canon(s) && Clear(s, b) && b.len > 0
    ensures var (c, rest) := WithNext(s, Place(s, b.at), b);
      Canon(rest) && c.at == b.at && c.len > 0 && forall j :: 0 <= j < |rest| ==> c.End() < rest[j].at
  {
    var i := Place(s, b.at);
    PlaceClear(s, b);
    hide Place, Clear;
    var (c, rest) := WithNext(s, i, b);
    var k := |s| - |rest|;
    assert rest == s[k..] && (k == i || (k == i + 1 && c.End() == s[i].End()));
    forall j | 0 <= j < |rest| ensures c.End() < rest[j].at {
      assert rest[j] == s[k + j];
      if k == i && j > 0 { assert s[i].End() < s[i + j].at; }
    }
  }

  lemma PrevGap(s: seq<Block>, b: Block, j: nat)
    requires Canon(s) && Clear(s, b) && b.len > 0
    ensures var i := Place(s, b.at);
      && (j < i && s[j].End() != b.at ==> s[j].End() < b.at)
      && (j < i - 1 ==> s[j].End() < s[i - 1].at && s[j].End() < b.at)
  {
    PlaceClear(s, b);
  }

  /** Joining keeps the list canonical: sorted, and with no two blocks touching. */
  lemma JoinCanon(s: seq<Block>, b: Block)
    requires Canon(s) && Clear(s, b) && b.len > 0
    ensures Canon(Join(s, b))
  {
    var i := Place(s, b.at);
    var (c, rest) := WithNext(s, i, b);
    NextGap(s, b);
    if i > 0 && s[i - 1].End() == b.at {
      var m := Block(s[i - 1].at, s[i - 1].len + c.len);
      assert Join(s, b) == s[..i - 1] + [m] + rest;
      forall j | 0 <= j < i - 1 ensures s[j].End() < m.at { PrevGap(s, b, j); }
      CanonParts(s[..i - 1], m, rest);
    } else {
      assert Join(s, b) == s[..i] + [c] + rest;
      forall j | 0 <= j < i ensures s[j].End() < c.at { PrevGap(s, b, j); }
      CanonParts(s[..i], c, rest);
    }
  }

  lemma TotalParts(s: seq<Block>, b: Block, t: seq<Block>)
    ensures Total(s + [b] + t) == Total(s) + b.len + Total(t)
  {
    TotalAppend(s + [b], t);
    assert (s + [b])[..|s|] == s;
  }

  lemma NextTotal(s: seq<Block>, i: nat, b: Block)
    requires i <= |s|
    ensures var (c, rest) := WithNext(s, i, b); c.len + Total(rest) == b.len + Total(s[i..])
  {
    if i < |s| {
      assert s[i..] == [] + [s[i]] + s[i + 1..];
      TotalParts([], s[i], s[i + 1..]);
    }
  }

  lemma JoinTotal(s: seq<Block>, b: Block)
    ensures Total(Join(s, b)) == Total(s) + b.len
  {
    var i := Place(s, b.at);
    var (c, rest) := WithNext(s, i, b);
    NextTotal(s, i, b);
    assert s == s[..i] + s[i..];
    TotalAppend(s[..i], s[i..]);
    if i > 0 && s[i - 1].End() == b.at {
      var m := Block(s[i - 1].at, s[i - 1].len + c.len);
      assert Join(s, b) == s[..i - 1] + [m] + rest;
      assert s[..i][..i - 1] == s[..i - 1];
      assert Total(s[..i]) == Total(s[..i - 1]) + s[i - 1].len;
      hide *;
      TotalParts(s[..i - 1], m, rest);
    } else {
      assert Join(s, b) == s[..i] + [c] + rest;
      hide *;
      TotalParts(s[..i], c, rest);
    }
  }
}
