/** The linked lists of cells in RAM: the three list routines of the allocator, with a doubly linked list that has a
    head but no tail, and insertion that merges the new cell with the cells it touches. */
module CellLists {
  import opened Lists
  import opened Chains
  import opened Blocks
  import opened HeapOps

  function Ats(s: seq<Block>): (r: seq<nat>)
    ensures |r| == |s|
  {
    seq(|s|, i requires 0 <= i < |s| => s[i].at)
  }

  /** The fields of all cells: links and lengths. */
  datatype Ram = Ram(next: map<nat, nat>, prev: map<nat, nat>, size: map<nat, nat>)
  {
    function Next(c: nat): nat { At(next, c, 0) }
    function Prev(c: nat): nat { At(prev, c, 0) }
    function Size(c: nat): nat { At(size, c, 0) }
  }

  /** `head` leads through the cells of `s`, each of the recorded length. */
  ghost predicate Listed(m: Ram, s: seq<Block>, head: nat) {
    && head == FirstOr(Ats(s), 0) && NoDup(Ats(s)) && 0 !in Ats(s)
    && Chain(Ats(s), 0, 0, m.next, m.prev)
    && Sized(m, s)
  }

  ghost predicate Sized(m: Ram, s: seq<Block>) {
    forall i :: 0 <= i < |s| ==> m.Size(s[i].at) == s[i].len
  }

  ghost predicate SameCell(m: Ram, m': Ram, c: nat) {
    m'.Next(c) == m.Next(c) && m'.Prev(c) == m.Prev(c) && m'.Size(c) == m.Size(c)
  }

  lemma ListedFrame(m: Ram, m': Ram, s: seq<Block>, head: nat)
    requires Listed(m, s, head) && forall i :: 0 <= i < |s| ==> SameCell(m, m', s[i].at)
    ensures Listed(m', s, head)
  {
    var a := Ats(s);
    forall k | 0 <= k < |a| ensures At(m'.next, a[k], 0) == Fwd(a, k, 0) {
      assert SameCell(m, m', s[k].at) && Fwd(a, k, 0) == m.Next(a[k]);
    }
    forall k | 0 <= k < |a| ensures At(m'.prev, a[k], 0) == Bwd(a, k, 0) {
      assert SameCell(m, m', s[k].at) && Bwd(a, k, 0) == m.Prev(a[k]);
    }
    forall i | 0 <= i < |s| ensures m'.Size(s[i].at) == s[i].len { assert SameCell(m, m', s[i].at); }
  }

  lemma AtsAppend(s: seq<Block>, t: seq<Block>)
    ensures Ats(s + t) == Ats(s) + Ats(t)
  {
  }

  lemma AtsCut(s: seq<Block>, i: nat)
    requires i <= |s|
    ensures Ats(s[..i]) == Ats(s)[..i] && Ats(s[i..]) == Ats(s)[i..]
  {
  }

  class Cells {
    var next: map<nat, nat>
    var prev: map<nat, nat>
    var size: map<nat, nat>

    ghost function Mem(): Ram
      reads this
    {
      Ram(next, prev, size)
    }

    constructor ()
      ensures Mem() == Ram(map[], map[], map[])
    {
      next, prev, size := map[], map[], map[];
    }

    /** Puts `cell` in front of the list. */
    method DLAddFront(list: nat, cell: nat, ghost b: Block, ghost s: seq<Block>) returns (head: nat)
      requires Listed(Mem(), s, list) && b == Block(cell, Mem().Size(cell)) && cell != 0 && cell !in Ats(s)
      modifies `next, `prev
      ensures Listed(Mem(), [b] + s, head)
      ensures forall c :: c != cell && c !in Ats(s) ==> SameCell(old(Mem()), Mem(), c)
    {
      next := next[cell := list];
      prev := prev[cell := 0];
      if list != 0 { prev := prev[list := cell]; }
      head := cell;
      Elsewhere(Ats(s), cell);
      if s != [] { Ends(Ats(s)); }
      Prepended(Ats(s), cell, old(next), old(prev), next, prev);
      AtsAppend([b], s);
      assert Ats([b]) == [cell];
    }

    /** Takes `cell` out of the list. */
    method DLExtract(list: nat, cell: nat, ghost s: seq<Block>, ghost j: nat) returns (head: nat)
      requires Listed(Mem(), s, list) && j < |s| && s[j].at == cell
      modifies `next, `prev
      ensures Listed(Mem(), s[..j] + s[j + 1..], head)
      ensures forall c :: c !in Ats(s) ==> SameCell(old(Mem()), Mem(), c)
    {
      ghost var a := Ats(s);
      Neighbours(a, j, next, prev);
      var n := At(next, cell, 0);
      var v := At(prev, cell, 0);
      if n != 0 { prev := prev[n := v]; }
      if v == 0 {
        head := n;
      } else {
        next := next[v := n];
        head := list;
      }
      ExtractedList(Ram(old(next), old(prev), size), Mem(), s, j, list, head);
    }

    /** The first cell of the list that the signed test finds long enough, 0 for none. */
    method FindFit(list: nat, req: nat, ghost s: seq<Block>) returns (cell: nat)
      requires Listed(Mem(), s, list)
      ensures var k := FirstFit(s, req); cell == if k < |s| then s[k].at else 0
    {
      ghost var a, i := Ats(s), 0;
      cell := list;
      while cell != 0
        invariant 0 <= i <= |s| && cell == FirstOr(a[i..], 0)
        invariant FirstFit(s, req) == i + FirstFit(s[i..], req)
        decreases |s| - i
      {
        assert i < |s| && cell == s[i].at;
        if Signed(req) <= Signed(At(size, cell, 0)) { break; }
        Neighbours(a, i, next, prev);
        cell := At(next, cell, 0);
        assert s[i..][1..] == s[i + 1..];
        i := i + 1;
      }
      if cell != 0 { assert a[i] in a; }
    }

    /** Splits `cell`: its first `req` bytes are taken, and what remains takes its place in the list. */
    method Carve(list: nat, cell: nat, req: nat, ghost s: seq<Block>, ghost k: nat) returns (head: nat)
      requires Listed(Mem(), s, list) && k < |s| && s[k].at == cell
      requires var r := (cell + req) % WORD; r != 0 && r !in Ats(s)
      modifies this
      ensures Listed(Mem(), s[..k] + [Block((cell + req) % WORD, Leftover(s[k], req))] + s[k + 1..], head)
      ensures Mem().Size(cell) == req
      ensures forall c :: c != (cell + req) % WORD && c !in Ats(s) ==> SameCell(old(Mem()), Mem(), c)
    {
      ghost var a := Ats(s);
      Neighbours(a, k, next, prev);
      var v := At(prev, cell, 0);
      var n := At(next, cell, 0);
      var leftover := (At(size, cell, 0) - req) % WORD;
      var r := (cell + req) % WORD;
      size := size[cell := req];
      size := size[r := leftover];
      prev := prev[r := v];
      next := next[r := n];
      if n != 0 { prev := prev[n := r]; }
      if v != 0 {
        next := next[v := r];
        head := list;
      } else {
        head := r;
      }
      CarvedList(old(Mem()), Mem(), s, k, req, list);
    }

    /** Inserts `cell` by address into the list, merged with the cells it touches. */
    method DLInsert(list: nat, cell: nat, ghost b: Block, ghost s: seq<Block>) returns (head: nat)
      requires Listed(Mem(), s, list) && b == Block(cell, Mem().Size(cell)) && cell != 0 && cell !in Ats(s)
      requires b.End() < WORD && forall i :: 0 <= i < |s| ==> s[i].End() < WORD
      modifies this
      ensures Listed(Mem(), Join(s, b), head)
      ensures forall c :: c != cell && c !in Ats(s) ==> SameCell(old(Mem()), Mem(), c)
    {
      var v, n := 0, list;
      ghost var a, i := Ats(s), 0;
      while n != 0
        invariant Mem() == old(Mem())
        invariant 0 <= i <= |s| && n == FirstOr(a[i..], 0) && v == LastOr(a[..i], 0)
        invariant forall j :: 0 <= j < i ==> s[j].at < cell
        decreases |s| - i
      {
        if cell <= n { break; }
        Neighbours(a, i, next, prev);
        v := n;
        n := At(next, n, 0);
        i := i + 1;
      }
      PlaceUnique(s, cell, i);
      ghost var m := Mem();
      AtsCut(s, i);
      InsertMoves(m, s, i, b);
      LinkNext(cell, v, n, b, s, i);
      if v == 0 {
        head := cell;
      } else {
        head := list;
        LinkPrev(cell, v, b, s, i);
      }
    }

    /** Links the cell to its neighbours `v` and `n`, and merges it with `n` when they touch. */
    method LinkNext(cell: nat, v: nat, n: nat, ghost b: Block, ghost s: seq<Block>, ghost i: nat)
      requires i <= |s| && b.at == cell && cell != 0
      requires NoDup(Ats(s)) && 0 !in Ats(s) && Chain(Ats(s), 0, 0, next, prev) && Sized(Mem(), s)
        && Mem().Size(cell) == b.len && cell !in Ats(s)
      requires n == FirstOr(Ats(s)[i..], 0) && b.End() < WORD && forall i :: 0 <= i < |s| ==> s[i].End() < WORD
      modifies this
      ensures Mem() == NextLinked(old(Mem()), s, i, b, v)
    {
      NextMoves(Mem(), s, i, b, v, n);
      hide NextLinked, Chain, Sized, NoDup, Ats;
      Attach(cell, v, n);
      if n != 0 && (cell + At(size, cell, 0)) % WORD == n {
        Absorb(cell, n);
        Overwritten(old(next), cell, n, At(old(next), n, 0));
      }
    }

    method Attach(cell: nat, v: nat, n: nat)
      modifies `next, `prev
      ensures next == old(next)[cell := n]
      ensures prev == if n != 0 then old(prev)[cell := v][n := cell] else old(prev)[cell := v]
    {
      next := next[cell := n];
      prev := prev[cell := v];
      if n != 0 { prev := prev[n := cell]; }
    }

    /** The cell takes over what follows it. */
    method Absorb(cell: nat, n: nat)
      modifies this
      ensures size == old(size)[cell := (At(old(size), cell, 0) + At(old(size), n, 0)) % WORD]
      ensures var nn := At(old(next), n, 0);
        && next == old(next)[cell := nn]
        && prev == if nn != 0 then old(prev)[nn := cell] else old(prev)
    {
      size := size[cell := (At(size, cell, 0) + At(size, n, 0)) % WORD];
      var nn := At(next, n, 0);
      next := next[cell := nn];
      if nn != 0 { prev := prev[nn := cell]; }
    }

    /** Links the cell's predecessor `v` to it, and merges the two when they touch. */
    method LinkPrev(cell: nat, v: nat, ghost b: Block, ghost s: seq<Block>, ghost i: nat)
      requires 0 < i <= |s| && v == s[i - 1].at && v != 0 && cell != v && s[i - 1].End() < WORD
      requires Mem().Size(v) == s[i - 1].len && Mem().Size(cell) == WithNext(s, i, b).0.len && b.at == cell
      requires s[i - 1].End() == cell ==> s[i - 1].len + Mem().Size(cell) < WORD
      requires At(next, cell, 0) == FirstOr(Ats(WithNext(s, i, b).1), 0)
      modifies this
      ensures Mem() == PrevLinked(old(Mem()), s, i, b)
    {
      next := next[v := cell];
      if (v + At(size, v, 0)) % WORD == cell {
        size := size[v := (At(size, v, 0) + At(size, cell, 0)) % WORD];
        var n := At(next, cell, 0);
        assert next[v := n] == old(next)[v := n];
        next := next[v := n];
        if n != 0 { prev := prev[n := v]; }
      }
    }
  }

  lemma PlaceUnique(s: seq<Block>, a: nat, i: nat)
    requires i <= |s| && (forall j :: 0 <= j < i ==> s[j].at < a) && (i < |s| ==> a <= s[i].at)
    ensures Place(s, a) == i
  {
  }

  /** The fields after the cell was linked to what follows it. */
  function NextLinked(m: Ram, s: seq<Block>, i: nat, b: Block, v: nat): Ram
    requires i <= |s|
  {
    var (c, rest) := WithNext(s, i, b);
    var n, t := FirstOr(Ats(s[i..]), 0), FirstOr(Ats(rest), 0);
    var p1 := m.prev[b.at := v];
    var p2 := if n != 0 then p1[n := b.at] else p1;
    if n != 0 && b.End() == n then
      Ram(m.next[b.at := t], if t != 0 then p2[t := b.at] else p2, m.size[b.at := c.len])
    else
      Ram(m.next[b.at := n], p2, m.size)
  }

  lemma Overwritten(m: map<nat, nat>, k: nat, x: nat, y: nat)
    ensures m[k := x][k := y] == m[k := y]
  {
  }

  /** The same in terms of the fields themselves. */
  lemma NextMoves(m: Ram, s: seq<Block>, i: nat, b: Block, v: nat, n: nat)
    requires i <= |s| && b.at != 0 && b.at !in Ats(s)
    requires 0 !in Ats(s) && Chain(Ats(s), 0, 0, m.next, m.prev) && Sized(m, s) && m.Size(b.at) == b.len
    requires n == FirstOr(Ats(s)[i..], 0) && b.End() < WORD && forall i :: 0 <= i < |s| ==> s[i].End() < WORD
    ensures n != b.at
    ensures var p1 := m.prev[b.at := v];
      var p2, nn := if n != 0 then p1[n := b.at] else p1, m.Next(n);
      NextLinked(m, s, i, b, v) ==
        if n != 0 && (b.at + m.Size(b.at)) % WORD == n then
          Ram(m.next[b.at := nn], if nn != 0 then p2[nn := b.at] else p2,
              m.size[b.at := (m.Size(b.at) + m.Size(n)) % WORD])
        else Ram(m.next[b.at := n], p2, m.size)
  {
    if i < |s| {
      assert Ats(s)[i] in Ats(s) && n == s[i].at;
      Neighbours(Ats(s), i, m.next, m.prev);
      AtsCut(s, i + 1);
    }
  }

  /** The fields after the cell was linked to what precedes it. */
  function PrevLinked(m: Ram, s: seq<Block>, i: nat, b: Block): Ram
    requires 0 < i <= |s|
  {
    var (c, rest) := WithNext(s, i, b);
    var v, t := s[i - 1], FirstOr(Ats(rest), 0);
    if v.End() == b.at then
      Ram(m.next[v.at := t], if t != 0 then m.prev[t := v.at] else m.prev, m.size[v.at := v.len + c.len])
    else
      Ram(m.next[v.at := b.at], m.prev, m.size)
  }

  lemma ExtractedList(m: Ram, m': Ram, s: seq<Block>, j: nat, list: nat, head: nat)
    requires Listed(m, s, list) && j < |s|
    requires var p, q := Ats(s)[..j], Ats(s)[j + 1..];
      && m'.next == (if LastOr(p, 0) != 0 then m.next[LastOr(p, 0) := FirstOr(q, 0)] else m.next)
      && m'.prev == (if FirstOr(q, 0) != 0 then m.prev[FirstOr(q, 0) := LastOr(p, 0)] else m.prev)
      && m'.size == m.size && head == (if LastOr(p, 0) == 0 then FirstOr(q, 0) else list)
    ensures Listed(m', s[..j] + s[j + 1..], head)
    ensures forall c :: c !in Ats(s) ==> SameCell(m, m', c)
  {
    var a := Ats(s);
    var p, q := a[..j], a[j + 1..];
    assert p != [] ==> p[j - 1] in a;
    assert q != [] ==> q[0] in a;
    Extracted(a, j, m.next, m.prev, m'.next, m'.prev);
    AtsCut(s, j);
    AtsCut(s, j + 1);
    AtsAppend(s[..j], s[j + 1..]);
  }

  /** What the insertion starts from. */
  ghost predicate Insertable(m: Ram, s: seq<Block>, i: nat, b: Block) {
    && i <= |s| && NoDup(Ats(s)) && 0 !in Ats(s) && Chain(Ats(s), 0, 0, m.next, m.prev) && Sized(m, s)
    && m.Size(b.at) == b.len && b.at !in Ats(s) && b.at != 0
  }

  /** Linking the cell to what follows it touches only its own fields and the backward links of what follows. */
  lemma NextLinkedFields(m: Ram, s: seq<Block>, i: nat, b: Block, v: nat, x: nat)
    requires i <= |s| && 0 !in Ats(s) && m.Size(b.at) == b.len
    ensures var (c, rest) := WithNext(s, i, b);
      var m1 := NextLinked(m, s, i, b, v);
      && m1.Next(x) == (if x == b.at then FirstOr(Ats(rest), 0) else m.Next(x))
      && m1.Size(x) == (if x == b.at then c.len else m.Size(x))
      && (x != b.at && (rest == [] || x != rest[0].at) && (i == |s| || x != s[i].at) ==> m1.Prev(x) == m.Prev(x))
      && (x == b.at && b.at !in Ats(s) ==> m1.Prev(x) == v)
      && (rest != [] && x == rest[0].at ==> m1.Prev(x) == b.at)
  {
    var (c, rest) := WithNext(s, i, b);
    if i < |s| { assert Ats(s)[i] in Ats(s) && FirstOr(Ats(s[i..]), 0) == s[i].at; }
    if rest != [] { assert rest[0] == s[|s| - |rest|] && Ats(s)[|s| - |rest|] in Ats(s); }
  }

  lemma HalfPrefix(m: Ram, s: seq<Block>, i: nat, b: Block)
    requires Insertable(m, s, i, b)
    ensures var p := Ats(s[..i]);
      var m1 := NextLinked(m, s, i, b, LastOr(p, 0));
      Chain(p, 0, FirstOr(Ats(s[i..]), 0), m1.next, m1.prev) && Sized(m1, s[..i])
  {
    var a, p := Ats(s), Ats(s[..i]);
    var m1 := NextLinked(m, s, i, b, LastOr(p, 0));
    AtsCut(s, i);
    ChainCut(a, i, 0, 0, m.next, m.prev);
    forall j | 0 <= j < i ensures SameCell(m, m1, s[j].at) {
      RestAts(s, i, b);
      assert a[j] in a && (i < |s| ==> a[j] != a[i]) && (|s| > i + 1 ==> a[j] != a[i + 1]);
      NextLinkedFields(m, s, i, b, LastOr(p, 0), a[j]);
    }
    forall j | 0 <= j < i ensures At(m1.next, p[j], 0) == At(m.next, p[j], 0) { assert SameCell(m, m1, s[j].at); }
    forall j | 0 <= j < i ensures At(m1.prev, p[j], 0) == At(m.prev, p[j], 0) { assert SameCell(m, m1, s[j].at); }
    forall j | 0 <= j < i ensures m1.Size(s[..i][j].at) == s[..i][j].len { assert SameCell(m, m1, s[j].at); }
    if i > 0 {
      assert Fwd(p, i - 1, FirstOr(a[i..], 0)) == At(m.next, p[i - 1], 0);
      assert Bwd(p, 0, 0) == At(m.prev, p[0], 0);
    }
    ChainBefore(p, 0, FirstOr(a[i..], 0), m.next, m.prev, 0, m1.next, m1.prev);
  }

  lemma BehindField(m: Ram, s: seq<Block>, i: nat, b: Block, v: nat, j: nat)
    requires Insertable(m, s, i, b) && j < |WithNext(s, i, b).1|
    ensures var x, m1 := WithNext(s, i, b).1[j].at, NextLinked(m, s, i, b, v);
      && At(m1.next, x, 0) == At(m.next, x, 0) && m1.Size(x) == m.Size(x)
      && At(m1.prev, x, 0) == if j == 0 then b.at else At(m.prev, x, 0)
  {
    var a, k := Ats(s), |s| - |WithNext(s, i, b).1|;
    hide NextLinked;
    assert a[k + j] in a && (j > 0 ==> a[k + j] != a[k]) && (k > i || j > 0 ==> a[k + j] != a[i]);
    NextLinkedFields(m, s, i, b, v, a[k + j]);
  }

  lemma HalfSuffix(m: Ram, s: seq<Block>, i: nat, b: Block)
    requires Insertable(m, s, i, b)
    ensures var v := LastOr(Ats(s[..i]), 0);
      var (c, rest) := WithNext(s, i, b);
      var m1 := NextLinked(m, s, i, b, v);
      && Chain([b.at] + Ats(rest), v, 0, m1.next, m1.prev) && m1.Size(b.at) == c.len && Sized(m1, rest)
  {
    var a, v := Ats(s), LastOr(Ats(s[..i]), 0);
    var (c, rest) := WithNext(s, i, b);
    var m1 := NextLinked(m, s, i, b, v);
    var t, k := Ats(rest), |s| - |rest|;
    AtsCut(s, k);
    assert rest == s[k..];
    ChainCut(a, k, 0, 0, m.next, m.prev);
    NextLinkedFields(m, s, i, b, v, b.at);
    hide NextLinked, WithNext;
    forall j | 0 <= j < |t|
      ensures At(m1.next, t[j], 0) == At(m.next, t[j], 0) && m1.Size(t[j]) == m.Size(t[j])
      ensures At(m1.prev, t[j], 0) == if j == 0 then b.at else At(m.prev, t[j], 0)
    {
      BehindField(m, s, i, b, v, j);
    }
    forall j | 0 <= j < |rest| ensures m1.Size(rest[j].at) == rest[j].len {
      assert rest[j] == s[k + j] && t[j] == rest[j].at;
    }
    ChainBefore(t, LastOr(a[..k], 0), 0, m.next, m.prev, b.at, m1.next, m1.prev);
    ChainPaste([b.at], t, v, 0, m1.next, m1.prev);
  }

  lemma PrevLinkedFields(m: Ram, s: seq<Block>, i: nat, b: Block, x: nat)
    requires 0 < i <= |s| && 0 !in Ats(s)
    ensures var (c, rest) := WithNext(s, i, b);
      var v, m2 := s[i - 1], PrevLinked(m, s, i, b);
      && m2.Next(x) == (if x != v.at then m.Next(x) else if v.End() == b.at then FirstOr(Ats(rest), 0) else b.at)
      && m2.Size(x) == (if x == v.at && v.End() == b.at then v.len + c.len else m.Size(x))
      && m2.Prev(x) == (if v.End() == b.at && rest != [] && x == rest[0].at then v.at else m.Prev(x))
  {
    var (c, rest) := WithNext(s, i, b);
    if rest != [] { assert rest[0] == s[|s| - |rest|] && Ats(s)[|s| - |rest|] in Ats(s); }
  }

  /** No predecessor: the cell heads the list. */
  lemma JoinedFront(m: Ram, s: seq<Block>, b: Block)
    requires Insertable(m, s, 0, b) && Place(s, b.at) == 0
    ensures Listed(NextLinked(m, s, 0, b, 0), Join(s, b), b.at)
  {
    HalfSuffix(m, s, 0, b);
    var (c, rest) := WithNext(s, 0, b);
    assert Join(s, b) == [] + [c] + rest;
    AtsAppend([c], rest);
    assert Ats([c]) == [b.at] && Ats(Join(s, b)) == [b.at] + Ats(rest);
    RestAts(s, 0, b);
  }

  /** The addresses behind the cell are those of the tail of the old list. */
  lemma RestAts(s: seq<Block>, i: nat, b: Block)
    requires i <= |s|
    ensures var rest := WithNext(s, i, b).1;
      var k := |s| - |rest|;
      && i <= k <= i + 1 && rest == s[k..] && Ats(rest) == Ats(s)[k..] && forall x :: x in Ats(rest) ==> x in Ats(s)
  {
    AtsCut(s, |s| - |WithNext(s, i, b).1|);
  }

  lemma BehindPrefix(m: Ram, s: seq<Block>, i: nat, b: Block)
    requires Insertable(m, s, i, b) && i > 0
    ensures var p, v := Ats(s[..i]), s[i - 1];
      var (c, rest) := WithNext(s, i, b);
      var m2 := PrevLinked(NextLinked(m, s, i, b, v.at), s, i, b);
      && Chain(p, 0, if v.End() == b.at then FirstOr(Ats(rest), 0) else b.at, m2.next, m2.prev)
      && Sized(m2, s[..i - 1]) && m2.Size(v.at) == (if v.End() == b.at then v.len + c.len else v.len)
      && (v.End() != b.at ==> Sized(m2, s[..i]))
  {
    var a, p, v := Ats(s), Ats(s[..i]), s[i - 1];
    var (c, rest) := WithNext(s, i, b);
    var m1 := NextLinked(m, s, i, b, v.at);
    var m2 := PrevLinked(m1, s, i, b);
    AtsCut(s, i);
    HalfPrefix(m, s, i, b);
    RestAts(s, i, b);
    forall j | 0 <= j < i
      ensures At(m2.prev, p[j], 0) == At(m1.prev, p[j], 0)
      ensures j < i - 1 ==> At(m2.next, p[j], 0) == At(m1.next, p[j], 0) && m2.Size(p[j]) == m1.Size(p[j])
    {
      PrevLinkedFields(m1, s, i, b, p[j]);
      assert p[j] == a[j] && (|s| > i ==> a[j] != a[i]) && (|s| > i + 1 ==> a[j] != a[i + 1])
        && (j < i - 1 ==> a[j] != a[i - 1]);
    }
    PrevLinkedFields(m1, s, i, b, v.at);
    var y := if v.End() == b.at then FirstOr(Ats(rest), 0) else b.at;
    assert p[i - 1] == v.at;
    ChainAfter(p, 0, FirstOr(a[i..], 0), m1.next, m1.prev, y, m2.next, m2.prev);
    var q := s[..i - 1];
    forall j | 0 <= j < i - 1 ensures m2.Size(q[j].at) == q[j].len {
      assert p[j] == s[j].at && s[..i][j] == s[j];
    }
    var f := s[..i];
    assert f[i - 1] == v && m1.Size(v.at) == v.len;
    forall j | 0 <= j < i && v.End() != b.at ensures m2.Size(f[j].at) == f[j].len {
      if j < i - 1 { assert f[j] == q[j]; }
    }
  }

  /** What the second phase leaves of the links behind the cell. */
  lemma BehindFields(m: Ram, s: seq<Block>, i: nat, b: Block)
    requires Insertable(m, s, i, b) && i > 0
    ensures var v, rest := s[i - 1], WithNext(s, i, b).1;
      var m1 := NextLinked(m, s, i, b, v.at);
      var m2, t := PrevLinked(m1, s, i, b), Ats(rest);
      && (forall j :: 0 <= j < |t| ==> At(m2.next, t[j], 0) == At(m1.next, t[j], 0) && m2.Size(t[j]) == m1.Size(t[j]))
      && (forall j :: 0 <= j < |t| ==>
          At(m2.prev, t[j], 0) == if v.End() == b.at && j == 0 then v.at else At(m1.prev, t[j], 0))
      && At(m2.next, b.at, 0) == At(m1.next, b.at, 0) && At(m2.prev, b.at, 0) == At(m1.prev, b.at, 0)
         && m2.Size(b.at) == m1.Size(b.at)
  {
    var a, v, rest := Ats(s), s[i - 1], WithNext(s, i, b).1;
    var m1 := NextLinked(m, s, i, b, v.at);
    var m2, t, k := PrevLinked(m1, s, i, b), Ats(rest), |s| - |rest|;
    RestAts(s, i, b);
    Elsewhere(a, b.at);
    forall j | 0 <= j < |t|
      ensures At(m2.next, t[j], 0) == At(m1.next, t[j], 0) && m2.Size(t[j]) == m1.Size(t[j])
      ensures At(m2.prev, t[j], 0) == if v.End() == b.at && j == 0 then v.at else At(m1.prev, t[j], 0)
    {
      PrevLinkedFields(m1, s, i, b, t[j]);
      assert t[j] == a[k + j] && t[0] == a[k] && a[k + j] != a[i - 1] && (j > 0 ==> a[k + j] != a[k]);
    }
    PrevLinkedFields(m1, s, i, b, b.at);
    assert v.at == a[i - 1] && (t != [] ==> t[0] == a[k]);
  }

  lemma NoDupParts(a: seq<nat>, i: nat, k: nat)
    requires NoDup(a) && 0 !in a && i <= k <= |a|
    ensures NoDup(a[..i] + a[k..]) && 0 !in a[..i] + a[k..]
  {
  }

  lemma NoDupSplice(a: seq<nat>, i: nat, k: nat, n: nat)
    requires NoDup(a) && 0 !in a && i <= k <= |a| && n != 0 && n !in a
    ensures NoDup(a[..i] + [n] + a[k..]) && 0 !in a[..i] + [n] + a[k..]
  {
  }

  lemma MergedTail(m: Ram, s: seq<Block>, i: nat, b: Block)
    requires Insertable(m, s, i, b) && i > 0 && s[i - 1].End() == b.at
    ensures var rest := WithNext(s, i, b).1;
      var m2 := PrevLinked(NextLinked(m, s, i, b, s[i - 1].at), s, i, b);
      Chain(Ats(rest), s[i - 1].at, 0, m2.next, m2.prev) && Sized(m2, rest)
  {
    hide NextLinked, PrevLinked, WithNext;
    var v, rest := s[i - 1], WithNext(s, i, b).1;
    var m1 := NextLinked(m, s, i, b, v.at);
    var m2, t := PrevLinked(m1, s, i, b), Ats(rest);
    AtsCut(s, i);
    HalfSuffix(m, s, i, b);
    BehindFields(m, s, i, b);
    ChainCut([b.at] + t, 1, v.at, 0, m1.next, m1.prev);
    assert ([b.at] + t)[1..] == t;
    ChainBefore(t, b.at, 0, m1.next, m1.prev, v.at, m2.next, m2.prev);
    forall j | 0 <= j < |rest| ensures m2.Size(rest[j].at) == rest[j].len { assert t[j] == rest[j].at; }
  }

  /** The merged list, and its addresses. */
  lemma MergedAts(s: seq<Block>, i: nat, b: Block)
    requires i == Place(s, b.at) && i > 0 && s[i - 1].End() == b.at && NoDup(Ats(s)) && 0 !in Ats(s)
    ensures var v, (c, rest) := s[i - 1], WithNext(s, i, b);
      Join(s, b) == s[..i - 1] + [Block(v.at, v.len + c.len)] + rest
    ensures var a := Ats(Join(s, b));
      a == Ats(s[..i]) + Ats(WithNext(s, i, b).1) && NoDup(a) && 0 !in a && FirstOr(a, 0) == FirstOr(Ats(s), 0)
  {
    var (c, rest) := WithNext(s, i, b);
    var k, w := |s| - |rest|, Block(s[i - 1].at, s[i - 1].len + c.len);
    hide Place, NoDup, Ats, FirstOr, WithNext;
    assert Join(s, b) == s[..i - 1] + [w] + rest;
    hide Join;
    RestAts(s, i, b);
    AtsCut(s, i);
    PrefixEnd(s, i);
    AtsThree(s[..i - 1], w, rest);
    NoDupParts(Ats(s), i, k);
    FirstKept(Ats(s), i, Ats(rest));
  }

  lemma MergedSized(m: Ram, q: seq<Block>, w: Block, rest: seq<Block>)
    requires Sized(m, q) && m.Size(w.at) == w.len && Sized(m, rest)
    ensures Sized(m, q + [w] + rest)
  {
  }

  /** A predecessor that the cell touches absorbs it. */
  lemma JoinedMerged(m: Ram, s: seq<Block>, i: nat, b: Block)
    requires Insertable(m, s, i, b) && i == Place(s, b.at) && i > 0 && s[i - 1].End() == b.at
    ensures Listed(PrevLinked(NextLinked(m, s, i, b, s[i - 1].at), s, i, b), Join(s, b), FirstOr(Ats(s), 0))
  {
    var p, v := Ats(s[..i]), s[i - 1];
    var (c, rest) := WithNext(s, i, b);
    var m2 := PrevLinked(NextLinked(m, s, i, b, v.at), s, i, b);
    hide NextLinked, PrevLinked, WithNext, Join, Place, Chain, Sized, NoDup, Ats;
    BehindPrefix(m, s, i, b);
    MergedTail(m, s, i, b);
    MergedAts(s, i, b);
    PrefixEnd(s, i);
    ChainPaste(p, Ats(rest), 0, 0, m2.next, m2.prev);
    MergedSized(m2, s[..i - 1], Block(v.at, v.len + c.len), rest);
  }

  lemma PrefixEnd(s: seq<Block>, i: nat)
    requires 0 < i <= |s|
    ensures Ats(s[..i]) == Ats(s[..i - 1]) + [s[i - 1].at] && LastOr(Ats(s[..i]), 0) == s[i - 1].at
    ensures Ats(s[..i]) != [] && |Ats(s)| == |s|
  {
  }

  lemma AtsThree(q: seq<Block>, w: Block, rest: seq<Block>)
    ensures Ats(q + [w] + rest) == Ats(q) + [w.at] + Ats(rest)
  {
    AtsAppend(q + [w], rest);
    AtsAppend(q, [w]);
  }

  lemma FirstStays(a: seq<nat>, i: nat, n: seq<nat>, r: seq<nat>)
    requires 0 < i <= |a|
    ensures FirstOr(a[..i] + n + r, 0) == FirstOr(a, 0)
  {
  }

  lemma FirstKept(a: seq<nat>, i: nat, r: seq<nat>)
    requires 0 < i <= |a|
    ensures FirstOr(a[..i] + r, 0) == FirstOr(a, 0)
  {
  }

  lemma ApartChain(m: Ram, s: seq<Block>, i: nat, b: Block)
    requires Insertable(m, s, i, b) && i > 0 && s[i - 1].End() != b.at
    ensures var rest := WithNext(s, i, b).1;
      var m2 := PrevLinked(NextLinked(m, s, i, b, s[i - 1].at), s, i, b);
      && Chain(Ats(s[..i]) + [b.at] + Ats(rest), 0, 0, m2.next, m2.prev) && Sized(m2, rest)
  {
    hide NextLinked, PrevLinked, WithNext;
    var v, rest := s[i - 1], WithNext(s, i, b).1;
    var m1 := NextLinked(m, s, i, b, v.at);
    var m2, t := PrevLinked(m1, s, i, b), Ats(rest);
    var bt := [b.at] + t;
    AtsCut(s, i);
    BehindPrefix(m, s, i, b);
    HalfSuffix(m, s, i, b);
    BehindFields(m, s, i, b);
    assert Bwd(bt, 0, v.at) == At(m1.prev, bt[0], 0);
    ChainBefore(bt, v.at, 0, m1.next, m1.prev, v.at, m2.next, m2.prev);
    ChainPaste(Ats(s[..i]), bt, 0, 0, m2.next, m2.prev);
    assert Ats(s[..i]) + bt == Ats(s[..i]) + [b.at] + t;
    forall j | 0 <= j < |rest| ensures m2.Size(rest[j].at) == rest[j].len { assert t[j] == rest[j].at; }
  }

  lemma ApartSize(m: Ram, s: seq<Block>, i: nat, b: Block)
    requires Insertable(m, s, i, b) && i > 0
    ensures PrevLinked(NextLinked(m, s, i, b, s[i - 1].at), s, i, b).Size(b.at) == WithNext(s, i, b).0.len
  {
    AtsCut(s, i);
    HalfSuffix(m, s, i, b);
    BehindFields(m, s, i, b);
  }

  lemma ApartAts(s: seq<Block>, i: nat, b: Block)
    requires i == Place(s, b.at) && i > 0 && s[i - 1].End() != b.at && NoDup(Ats(s)) && 0 !in Ats(s)
    requires b.at != 0 && b.at !in Ats(s)
    ensures var (c, rest) := WithNext(s, i, b); Join(s, b) == s[..i] + [c] + rest && c.at == b.at
    ensures var a := Ats(Join(s, b));
      && a == Ats(s[..i]) + [b.at] + Ats(WithNext(s, i, b).1) && NoDup(a) && 0 !in a
      && FirstOr(a, 0) == FirstOr(Ats(s), 0)
  {
    var (c, rest) := WithNext(s, i, b);
    var k := |s| - |rest|;
    assert c.at == b.at;
    hide Place, NoDup, Ats, FirstOr, WithNext;
    assert Join(s, b) == s[..i] + [c] + rest;
    hide Join;
    RestAts(s, i, b);
    AtsCut(s, i);
    PrefixEnd(s, i);
    AtsThree(s[..i], c, rest);
    NoDupSplice(Ats(s), i, k, b.at);
    FirstStays(Ats(s), i, [b.at], Ats(rest));
  }

  /** A predecessor that the cell does not touch is followed by it. */
  lemma JoinedApart(m: Ram, s: seq<Block>, i: nat, b: Block)
    requires Insertable(m, s, i, b) && i == Place(s, b.at) && i > 0 && s[i - 1].End() != b.at
    ensures Listed(PrevLinked(NextLinked(m, s, i, b, s[i - 1].at), s, i, b), Join(s, b), FirstOr(Ats(s), 0))
  {
    var (c, rest) := WithNext(s, i, b);
    var m2 := PrevLinked(NextLinked(m, s, i, b, s[i - 1].at), s, i, b);
    hide NextLinked, PrevLinked, WithNext, Join, Place, Chain, Sized, NoDup, Ats;
    BehindPrefix(m, s, i, b);
    ApartSize(m, s, i, b);
    ApartChain(m, s, i, b);
    ApartAts(s, i, b);
    MergedSized(m2, s[..i], c, rest);
  }

  /** The two phases of an insertion, together. */
  lemma InsertMoves(m: Ram, s: seq<Block>, i: nat, b: Block)
    requires Insertable(m, s, i, b) && i == Place(s, b.at)
    ensures var m1 := NextLinked(m, s, i, b, LastOr(Ats(s)[..i], 0));
      && (i == 0 ==> Listed(m1, Join(s, b), b.at))
      && (forall x :: x != b.at && x !in Ats(s) ==> SameCell(m, m1, x))
      && (i > 0 ==>
          var (c, rest) := WithNext(s, i, b);
          var m2 := PrevLinked(m1, s, i, b);
          && Listed(m2, Join(s, b), FirstOr(Ats(s), 0))
          && m1.Size(s[i - 1].at) == s[i - 1].len && m1.Size(b.at) == c.len && m1.Next(b.at) == FirstOr(Ats(rest), 0)
          && (forall x :: x != b.at && x !in Ats(s) ==> SameCell(m, m2, x)))
  {
    AtsCut(s, i);
    RestAts(s, i, b);
    var v := LastOr(Ats(s)[..i], 0);
    var m1 := NextLinked(m, s, i, b, v);
    forall x | x != b.at && x !in Ats(s) ensures SameCell(m, m1, x) {
      NextLinkedFields(m, s, i, b, v, x);
      InsertElsewhere(s, i, b, x);
    }
    if i == 0 {
      JoinedFront(m, s, b);
    } else {
      assert v == s[i - 1].at;
      HalfPrefix(m, s, i, b);
      HalfSuffix(m, s, i, b);
      assert s[..i][i - 1] == s[i - 1];
      NextLinkedFields(m, s, i, b, v, b.at);
      if s[i - 1].End() == b.at { JoinedMerged(m, s, i, b); } else { JoinedApart(m, s, i, b); }
      forall x | x != b.at && x !in Ats(s) ensures SameCell(m, PrevLinked(m1, s, i, b), x) {
        PrevLinkedFields(m1, s, i, b, x);
        InsertElsewhere(s, i, b, x);
        assert Ats(s)[i - 1] in Ats(s);
      }
    }
  }

  lemma InsertElsewhere(s: seq<Block>, i: nat, b: Block, x: nat)
    requires i <= |s| && x !in Ats(s)
    ensures var rest := WithNext(s, i, b).1; (rest == [] || x != rest[0].at) && (i == |s| || x != s[i].at)
  {
    RestAts(s, i, b);
    var rest := WithNext(s, i, b).1;
    if rest != [] { assert Ats(rest)[0] in Ats(rest); }
    if i < |s| { assert Ats(s)[i] in Ats(s); }
  }

  /** A list in which cell `k` gave way to a cell at another address. */
  lemma ReplacedList(m: Ram, m': Ram, s: seq<Block>, k: nat, b: Block, list: nat)
    requires Listed(m, s, list) && k < |s| && b.at != 0 && b.at !in Ats(s)
    requires var v, n := LastOr(Ats(s)[..k], 0), FirstOr(Ats(s)[k + 1..], 0);
      && m'.next == (if v != 0 then m.next[b.at := n][v := b.at] else m.next[b.at := n])
      && m'.prev == (if n != 0 then m.prev[b.at := v][n := b.at] else m.prev[b.at := v])
    requires m'.Size(b.at) == b.len && forall j :: 0 <= j < |s| && j != k ==> m'.Size(s[j].at) == s[j].len
    ensures Listed(m', s[..k] + [b] + s[k + 1..], if k == 0 then b.at else list)
  {
    hide Chain;
    Replaced(Ats(s), k, b.at, m.next, m.prev, m'.next, m'.prev);
    NoDupSplice(Ats(s), k, k + 1, b.at);
    ReplacedBlocks(m', s, k, b);
  }

  lemma ReplacedBlocks(m: Ram, s: seq<Block>, k: nat, b: Block)
    requires k < |s|
    requires m.Size(b.at) == b.len && forall j :: 0 <= j < |s| && j != k ==> m.Size(s[j].at) == s[j].len
    ensures Ats(s[..k] + [b] + s[k + 1..]) == Ats(s)[..k] + [b.at] + Ats(s)[k + 1..]
    ensures Sized(m, s[..k] + [b] + s[k + 1..])
  {
  }

  lemma CarvedList(m: Ram, m': Ram, s: seq<Block>, k: nat, req: nat, list: nat)
    requires Listed(m, s, list) && k < |s|
    requires var r := (s[k].at + req) % WORD;
      var v, n := LastOr(Ats(s)[..k], 0), FirstOr(Ats(s)[k + 1..], 0);
      && r != 0 && r !in Ats(s)
      && m'.size == m.size[s[k].at := req][r := Leftover(s[k], req)]
      && m'.next == (if v != 0 then m.next[r := n][v := r] else m.next[r := n])
      && m'.prev == (if n != 0 then m.prev[r := v][n := r] else m.prev[r := v])
    ensures var r := (s[k].at + req) % WORD;
      && Listed(m', s[..k] + [Block(r, Leftover(s[k], req))] + s[k + 1..], if k == 0 then r else list)
      && m'.Size(s[k].at) == req
      && forall c :: c != r && c !in Ats(s) ==> SameCell(m, m', c)
  {
    var a, r := Ats(s), (s[k].at + req) % WORD;
    Elsewhere(a, r);
    assert a[k] in a;
    forall j | 0 <= j < |s| && j != k ensures m'.Size(s[j].at) == s[j].len { assert a[j] != a[k] && a[j] != r; }
    ReplacedList(m, m', s, k, Block(r, Leftover(s[k], req)), list);
    assert k > 0 ==> a[k - 1] in a;
    assert k + 1 < |a| ==> a[k + 1] in a;
  }
}
