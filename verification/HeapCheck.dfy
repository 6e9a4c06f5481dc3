/** The heap check on memory in any state: links that lead anywhere, circular lists included. */
module HeapCheck {
  import opened Lists
  import opened Chains
  import opened Blocks
  import opened HeapOps
  import opened CellLists

  /** Cell `c` passes the tests made on every cell: its place, the link back from the next cell, its length. */
  predicate Passes(m: Ram, c: nat, lo: nat, hi: nat) {
    CellOk(Block(c, m.Size(c)), lo, hi) && (m.Next(c) != 0 ==> m.Prev(m.Next(c)) == c)
  }

  /** A free cell must also end below the next one. */
  predicate EndsBelow(m: Ram, c: nat) {
    m.Next(c) != 0 ==> (c + m.Size(c)) % WORD < m.Next(c)
  }

  /** The walk of a list from cell `c`: the total so far, -1 as soon as a test fails. It ends on every memory, because
      each cell adds to a total that may not exceed the heap. */
  function Walk(m: Ram, c: nat, apart: bool, lo: nat, hi: nat, bytes: int, total: nat): int
    decreases bytes - total
  {
    if c == 0 then total
    else if !Passes(m, c, lo, hi) || (apart && !EndsBelow(m, c)) || total + Signed(m.Size(c)) > bytes then -1
    else Walk(m, m.Next(c), apart, lo, hi, bytes, total + Signed(m.Size(c)))
  }

  /** The cells that a successful walk meets. */
  function Met(m: Ram, c: nat, apart: bool, lo: nat, hi: nat, bytes: int, total: nat): seq<Block>
    requires Walk(m, c, apart, lo, hi, bytes, total) != -1
    decreases bytes - total
  {
    if c == 0 then [] else
    [Block(c, m.Size(c))] + Met(m, m.Next(c), apart, lo, hi, bytes, total + Signed(m.Size(c)))
  }

  /** The bytes that could be handed out, by lengths read as signed words. */
  function SignedRoom(s: seq<Block>): int {
    if s == [] then 0 else Signed(s[0].len) - HEADER + SignedRoom(s[1..])
  }

  lemma MetHead(m: Ram, c: nat, apart: bool, lo: nat, hi: nat, bytes: int, total: nat)
    requires c != 0
    ensures var w := Walk(m, c, apart, lo, hi, bytes, total);
      w != -1 ==>
        var met := Met(m, m.Next(c), apart, lo, hi, bytes, total + Signed(m.Size(c)));
        SignedRoom(Met(m, c, apart, lo, hi, bytes, total)) == Signed(m.Size(c)) - HEADER + SignedRoom(met)
  {
  }

  /** The whole check of a heap descriptor. */
  function RawCheck(m: Ram, size: int, free: nat, used: nat, lo: nat, hi: nat): int {
    if size < 0 || (used != 0 && m.Prev(used) != 0) then -1 else
    var t := Walk(m, used, false, lo, hi, size, 0);
    if t < 0 || (free != 0 && m.Prev(free) != 0) then -1 else
    var total := Walk(m, free, true, lo, hi, size, t);
    if total != size then -1 else SignedRoom(Met(m, free, true, lo, hi, size, t))
  }

  // ----- what a successful walk has met

  ghost predicate Sound(m: Ram, s: seq<Block>, v: nat, apart: bool, lo: nat, hi: nat) {
    && Chain(Ats(s), v, 0, m.next, m.prev) && Sized(m, s) && AllOk(s, lo, hi) && (apart ==> Gaps(s)) && 0 !in Ats(s)
  }

  lemma SoundCons(m: Ram, c: nat, s: seq<Block>, v: nat, apart: bool, lo: nat, hi: nat)
    requires Sound(m, s, c, apart, lo, hi) && c != 0 && Passes(m, c, lo, hi) && m.Prev(c) == v
    requires m.Next(c) == FirstOr(Ats(s), 0) && (apart ==> EndsBelow(m, c))
    ensures Sound(m, [Block(c, m.Size(c))] + s, v, apart, lo, hi)
  {
    var b := Block(c, m.Size(c));
    AtsAppend([b], s);
    assert Ats([b]) == [c];
    ChainPaste([c], Ats(s), v, 0, m.next, m.prev);
    var r := [b] + s;
    forall i | 0 <= i < |r| ensures m.Size(r[i].at) == r[i].len && CellOk(r[i], lo, hi) {
      if i > 0 { assert r[i] == s[i - 1]; }
    }
    if apart {
      forall i, j | 0 <= i && j == i + 1 < |r| ensures r[i].End() % WORD < r[j].at {
        assert r[j] == s[i];
        if i > 0 { assert r[i] == s[i - 1]; } else { assert Ats(s)[0] == s[0].at; }
      }
    }
  }

  lemma {:induction false} MetSound(m: Ram, c: nat, apart: bool, lo: nat, hi: nat, bytes: int, total: nat, v: nat)
    requires Walk(m, c, apart, lo, hi, bytes, total) != -1 && (c != 0 ==> m.Prev(c) == v)
    ensures var s := Met(m, c, apart, lo, hi, bytes, total);
      && Sound(m, s, v, apart, lo, hi) && FirstOr(Ats(s), 0) == c && |Ats(s)| == |s|
    decreases bytes - total
  {
    if c != 0 {
      var t := total + Signed(m.Size(c));
      MetSound(m, m.Next(c), apart, lo, hi, bytes, t, c);
      var s := Met(m, m.Next(c), apart, lo, hi, bytes, t);
      SoundCons(m, c, s, v, apart, lo, hi);
      AtsAppend([Block(c, m.Size(c))], s);
    }
  }

  /** A chain that starts at an end has no cell twice. */
  lemma {:induction false} ChainDistinct(a: seq<nat>, next: map<nat, nat>, prev: map<nat, nat>, i: nat, j: nat)
    requires Chain(a, 0, 0, next, prev) && 0 !in a && i < j < |a|
    ensures a[i] != a[j]
    decreases i
  {
    assert At(prev, a[i], 0) == Bwd(a, i, 0) && At(prev, a[j], 0) == Bwd(a, j, 0);
    if i > 0 { ChainDistinct(a, next, prev, i - 1, j - 1); }
  }

  lemma SoundListed(m: Ram, s: seq<Block>, head: nat, apart: bool, lo: nat, hi: nat)
    requires Sound(m, s, 0, apart, lo, hi) && head == FirstOr(Ats(s), 0)
    ensures Listed(m, s, head)
  {
    forall i, j | 0 <= i < j < |Ats(s)| ensures Ats(s)[i] != Ats(s)[j] { ChainDistinct(Ats(s), m.next, m.prev, i, j); }
  }

  // ----- the walk of a linked list

  lemma ListedTail(m: Ram, s: seq<Block>, v: nat)
    requires s != [] && Chain(Ats(s), v, 0, m.next, m.prev) && Sized(m, s) && 0 !in Ats(s)
    ensures var t, c := s[1..], s[0].at;
      && Chain(Ats(t), c, 0, m.next, m.prev) && Sized(m, t) && 0 !in Ats(t) && m.Size(c) == s[0].len && c != 0
      && m.Next(c) == FirstOr(Ats(t), 0) && (Ats(t) != [] ==> m.Prev(m.Next(c)) == c) && m.Prev(c) == v
  {
    var a := Ats(s);
    AtsCut(s, 1);
    ChainCut(a, 1, v, 0, m.next, m.prev);
    assert a[0] == s[0].at && a[0] in a && LastOr(a[..1], v) == a[0];
    assert Fwd(a, 0, 0) == At(m.next, a[0], 0) && Bwd(a, 0, v) == At(m.prev, a[0], 0);
    if |s| > 1 { assert Bwd(a, 1, v) == At(m.prev, a[1], 0); }
    forall i | 0 <= i < |s| - 1 ensures m.Size(s[1..][i].at) == s[1..][i].len { assert s[1..][i] == s[i + 1]; }
  }

  lemma {:induction false} WalkUsed(m: Ram, s: seq<Block>, v: nat, lo: nat, hi: nat, bytes: int, total: nat)
    requires Chain(Ats(s), v, 0, m.next, m.prev) && Sized(m, s) && 0 !in Ats(s)
    ensures Walk(m, FirstOr(Ats(s), 0), false, lo, hi, bytes, total) == CheckUsed(s, lo, hi, bytes, total)
    decreases |s|
  {
    if s != [] {
      var c := s[0].at;
      assert FirstOr(Ats(s), 0) == c;
      ListedTail(m, s, v);
      assert Passes(m, c, lo, hi) <==> CellOk(s[0], lo, hi);
      if CellOk(s[0], lo, hi) { WalkUsed(m, s[1..], c, lo, hi, bytes, total + Signed(s[0].len)); }
    }
  }

  lemma {:induction false} WalkFree(m: Ram, s: seq<Block>, v: nat, lo: nat, hi: nat, bytes: int, total: nat, room: int)
    requires Chain(Ats(s), v, 0, m.next, m.prev) && Sized(m, s) && 0 !in Ats(s)
    ensures var c := FirstOr(Ats(s), 0);
      var t := Walk(m, c, true, lo, hi, bytes, total);
      && t == CheckFree(s, lo, hi, bytes, total, room).0
      && (t != -1 ==> Met(m, c, true, lo, hi, bytes, total) == s
                      && CheckFree(s, lo, hi, bytes, total, room).1 == room + SignedRoom(s))
    decreases |s|
  {
    if s != [] {
      var c := s[0].at;
      assert FirstOr(Ats(s), 0) == c;
      ListedTail(m, s, v);
      assert Passes(m, c, lo, hi) <==> CellOk(s[0], lo, hi);
      assert |s| > 1 ==> FirstOr(Ats(s[1..]), 0) == s[1].at && s[1].at in Ats(s[1..]) by {
        if |s| > 1 { assert Ats(s[1..])[0] == s[1].at; }
      }
      if CellOk(s[0], lo, hi) {
        WalkFree(m, s[1..], c, lo, hi, bytes, total + Signed(s[0].len), room + Signed(s[0].len) - HEADER);
        assert s == [s[0]] + s[1..];
      }
    }
  }

  /** On soundly linked lists the check is the one on what they hold. */
  lemma RawOfLists(m: Ram, h: Heap, free: nat, used: nat, lo: nat, hi: nat)
    requires Listed(m, h.free, free) && Listed(m, h.used, used)
    ensures RawCheck(m, h.size, free, used, lo, hi) == Check(h, lo, hi)
  {
    if h.Live() {
      HeadBack(m, h.free, free);
      HeadBack(m, h.used, used);
      WalkUsed(m, h.used, 0, lo, hi, h.size, 0);
      var t := CheckUsed(h.used, lo, hi, h.size, 0);
      WalkTotal(m, used, false, lo, hi, h.size, 0);
      if t >= 0 { WalkFree(m, h.free, 0, lo, hi, h.size, t, 0); }
    }
  }

  lemma {:induction false} WalkTotal(m: Ram, c: nat, apart: bool, lo: nat, hi: nat, bytes: int, total: nat)
    ensures Walk(m, c, apart, lo, hi, bytes, total) >= -1
    decreases bytes - total
  {
    if c != 0 && Walk(m, c, apart, lo, hi, bytes, total) != -1 {
      WalkTotal(m, m.Next(c), apart, lo, hi, bytes, total + Signed(m.Size(c)));
    }
  }

  lemma HeadBack(m: Ram, s: seq<Block>, head: nat)
    requires Listed(m, s, head)
    ensures head != 0 ==> m.Prev(head) == 0
  {
    if s != [] { assert Bwd(Ats(s), 0, 0) == At(m.prev, Ats(s)[0], 0); }
  }

  /** The lists that start at `free` and `used` make up a heap of `size` bytes. */
  ghost predicate Consistent(m: Ram, size: int, free: nat, used: nat, lo: nat, hi: nat, f: seq<Block>, u: seq<Block>) {
    && Listed(m, f, free) && Listed(m, u, used) && AllOk(f, lo, hi) && AllOk(u, lo, hi) && Gaps(f)
    && size >= 0 && Total(u) + Total(f) == size
  }

  /** On every memory the check ends; it accepts exactly when both heads lead through soundly linked lists, with
      links that agree both ways, of well-formed cells, the free ones sorted with gaps, that make up the heap's size.
      It then returns the bytes that could be handed out. */
  lemma RawCheckIff(m: Ram, size: int, free: nat, used: nat, lo: nat, hi: nat)
    requires forall c :: m.Size(c) < WORD
    ensures RawCheck(m, size, free, used, lo, hi) != -1 <==>
      exists f, u :: Consistent(m, size, free, used, lo, hi, f, u)
    ensures forall f, u :: Consistent(m, size, free, used, lo, hi, f, u) ==>
      RawCheck(m, size, free, used, lo, hi) == Room(f)
  {
    forall f, u | Consistent(m, size, free, used, lo, hi, f, u)
      ensures RawCheck(m, size, free, used, lo, hi) == Room(f) != -1
    {
      RawAccepts(m, size, free, used, lo, hi, f, u);
    }
    if RawCheck(m, size, free, used, lo, hi) != -1 { RawFinds(m, size, free, used, lo, hi); }
  }

  lemma ListedWords(m: Ram, s: seq<Block>)
    requires Sized(m, s) && forall c :: m.Size(c) < WORD
    ensures Words(s)
  {
    forall i | 0 <= i < |s| ensures s[i].len < WORD { assert m.Size(s[i].at) == s[i].len; }
  }

  lemma RawAccepts(m: Ram, size: int, free: nat, used: nat, lo: nat, hi: nat, f: seq<Block>, u: seq<Block>)
    requires (forall c :: m.Size(c) < WORD) && Consistent(m, size, free, used, lo, hi, f, u)
    ensures RawCheck(m, size, free, used, lo, hi) == Room(f) != -1
  {
    var h := Heap(size, f, u);
    ListedWords(m, f);
    ListedWords(m, u);
    RawOfLists(m, h, free, used, lo, hi);
    CheckIff(h, lo, hi);
    RoomPositive(f, lo, hi);
  }

  lemma {:induction false} RoomPositive(s: seq<Block>, lo: nat, hi: nat)
    requires AllOk(s, lo, hi) && Words(s)
    ensures Room(s) >= 0
    decreases |s|
  {
    if s != [] {
      assert CellOk(s[0], lo, hi);
      TotalHead(s);
      assert forall i :: 0 <= i < |s| - 1 ==> s[1..][i] == s[i + 1];
      RoomPositive(s[1..], lo, hi);
    }
  }

  lemma RawFinds(m: Ram, size: int, free: nat, used: nat, lo: nat, hi: nat)
    requires (forall c :: m.Size(c) < WORD) && RawCheck(m, size, free, used, lo, hi) != -1
    ensures exists f, u :: Consistent(m, size, free, used, lo, hi, f, u)
  {
    var t := Walk(m, used, false, lo, hi, size, 0);
    var u, f := Met(m, used, false, lo, hi, size, 0), Met(m, free, true, lo, hi, size, t);
    MetSound(m, used, false, lo, hi, size, 0, 0);
    MetSound(m, free, true, lo, hi, size, t, 0);
    SoundListed(m, u, used, false, lo, hi);
    SoundListed(m, f, free, true, lo, hi);
    ListedWords(m, f);
    ListedWords(m, u);
    var h := Heap(size, f, u);
    RawOfLists(m, h, free, used, lo, hi);
    CheckIff(h, lo, hi);
    assert Consistent(m, size, free, used, lo, hi, f, u);
  }
}
