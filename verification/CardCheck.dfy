/** The mount verifier's check of the two copies of the table, and which copy it keeps. */
module CardCheck {
  import opened Fat
  import opened FatOps
  import CardFat

  /** The counter as a signed 16-bit number. */
  function Signed16(x: int): int { if x < 0x8000 then x else x - WORD }

  /** Which of two accepted copies gives way to the other: the one whose signed counter is lower, copy 1 in a draw. */
  function Loser(f0: seq<int>, f1: seq<int>): int
    requires |f0| == |f1| == ENTRIES
  {
    if Signed16(f0[CHECK_CODE]) - Signed16(f1[CHECK_CODE]) < 0 then 0 else 1
  }

  function Survivor(f0: seq<int>, f1: seq<int>): seq<int>
    requires |f0| == |f1| == ENTRIES
  {
    if Loser(f0, f1) == 0 then f1 else f0
  }

  /** The update made last survives unless the counter stepped from 0x7FFF to 0x8000 with it; then the copy made before
      it overwrites it. */
  lemma NewestSurvivesIff(before: seq<int>, after: seq<int>)
    requires Table(before) && Table(after) && after[CHECK_CODE] == (before[CHECK_CODE] + 1) % WORD
    ensures Survivor(before, after) == after <==> before[CHECK_CODE] != 0x7FFF
    ensures Survivor(after, before) == after <==> before[CHECK_CODE] != 0x7FFF
  {
    assert before != after;
  }

  /** In a draw the first copy survives. */
  lemma DrawKeepsFirst(f0: seq<int>, f1: seq<int>)
    requires Table(f0) && Table(f1) && f0[CHECK_CODE] == f1[CHECK_CODE]
    ensures Survivor(f0, f1) == f0
  {
  }

  /** The two table copies of a mounted card; `current` is -1 until a copy was chosen. */
  class Control {
    const cblock: int
    const fat0: array<int>
    const fat1: array<int>
    var current: int

    ghost predicate Valid()
      reads this, fat0, fat1
    {
      Blocks(cblock) && fat0 != fat1 && fat0.Length == fat1.Length == ENTRIES && Table(fat0[..]) && Table(fat1[..])
    }

    constructor (c: int, a: array<int>, b: array<int>)
      requires Blocks(c) && a != b && a.Length == b.Length == ENTRIES && Table(a[..]) && Table(b[..])
      ensures Valid() && cblock == c && fat0 == a && fat1 == b && current == -1
    {
      cblock, fat0, fat1, current := c, a, b, -1;
    }

    /** Tests one copy: its checksums and its free count. */
    method Check(fat: array<int>) returns (ok: bool)
      requires fat.Length == ENTRIES && Table(fat[..]) && Blocks(cblock)
      ensures ok <==> Accepts(fat[..], cblock)
    {
      var a, b := CardFat.CheckSum(fat, CHECK_CODE, 8 * 1024 - 4);
      assert fat[CHECK_CODE..CHECK_CODE + (8 * 1024 - 4) / 2] == fat[..][CHECK_CODE..];
      if fat[CHECKSUM] != a || fat[CHECKSUM_INV] != b { return false; }
      var free := 0;
      ghost var found: set<int> := {};
      for n := FIRST to cblock
        invariant free == |found| && forall b :: b in found <==> FIRST <= b < n && fat[b] == 0
      {
        if fat[n] == 0 {
          free := (free + 1) % WORD;
          Bounded(found, n);
          found := found + {n};
        }
      }
      assert found == FreeSet(fat[..], cblock);
      ok := free == fat[FREE_BLOCKS];
    }

    /** Counts the copies that fail. When none does and none is current yet, the losing copy is overwritten. */
    method VerifyFAT() returns (errors: int)
      requires Valid()
      modifies this, fat0, fat1
      ensures Valid()
      ensures var f0, f1 := old(fat0[..]), old(fat1[..]);
        && errors == (if Accepts(f0, cblock) then 0 else 1) + (if Accepts(f1, cblock) then 0 else 1)
        && (errors > 0 || old(current) != -1 ==> fat0[..] == f0 && fat1[..] == f1)
        && (errors > 0 ==> current == -1)
        && (errors == 0 && old(current) != -1 ==> current == old(current))
        && (errors == 0 && old(current) == -1 ==>
            current == Loser(f0, f1) && fat0[..] == Survivor(f0, f1) && fat1[..] == Survivor(f0, f1))
    {
      errors := 0;
      var ok := Check(fat0);
      if !ok {
        errors := errors + 1;
        current := -1;
      }
      ok := Check(fat1);
      if !ok {
        errors := errors + 1;
        current := -1;
      }
      if errors == 0 && current == -1 {
        current := if Signed16(fat0[CHECK_CODE]) - Signed16(fat1[CHECK_CODE]) < 0 then 0 else 1;
        if current == 0 { Copy(fat1, fat0); } else { Copy(fat0, fat1); }
      }
    }

    method Copy(from: array<int>, to: array<int>)
      requires from != to && from.Length == to.Length
      modifies to
      ensures to[..] == from[..]
    {
      forall i | 0 <= i < to.Length { to[i] := from[i]; }
    }
  }

  lemma Bounded(s: set<int>, n: int)
    requires FIRST <= n <= ENTRIES && forall b :: b in s ==> FIRST <= b < n
    ensures |s| <= n - FIRST
  {
    var t := seq(n - FIRST, i => i + FIRST);
    var all := set b | b in t;
    LengthIsCount(t, all);
    forall b | b in s ensures b in all { assert t[b - FIRST] == b; }
    assert s + (all - s) == all;
  }
}
