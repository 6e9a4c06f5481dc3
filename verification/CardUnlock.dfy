/** The scrambling registers of the memory card's unlock sequence, and its random numbers. */
module CardUnlock {
  import opened Division

  /** One shift to the right: the bit let in at place 30 is worked out from bits 0, 7, 15 and 23. */
  function StepRight(w: bv32): bv32 {
    var wk := !(w ^ (w >> 7) ^ (w >> 15) ^ (w >> 23));
    (w >> 1) | ((wk << 30) & 0x4000_0000)
  }

  /** One shift to the left: the bit let in at place 1 is worked out from bits 31, 24, 16 and 8. */
  function StepLeft(w: bv32): bv32 {
    var wk := !(w ^ (w << 7) ^ (w << 15) ^ (w << 23));
    (w << 1) | ((wk >> 30) & 0x2)
  }

  function Rights(w: bv32, n: nat): bv32 {
    if n == 0 then w else StepRight(Rights(w, n - 1))
  }

  function Lefts(w: bv32, n: nat): bv32 {
    if n == 0 then w else StepLeft(Lefts(w, n - 1))
  }

  method Exnor1st(data: bv32, rshift: nat) returns (w: bv32)
    ensures w == Rights(data, rshift)
  {
    w := data;
    for i := 0 to rshift
      invariant w == Rights(data, i)
    {
      w := StepRight(w);
    }
  }

  method Exnor(data: bv32, lshift: nat) returns (w: bv32)
    ensures w == Lefts(data, lshift)
  {
    w := data;
    for i := 0 to lshift
      invariant w == Lefts(data, i)
    {
      w := StepLeft(w);
    }
  }

  // ----- bit reversal

  predicate Bit(w: bv32, i: bv32)
    requires i < 32
  {
    (w >> i) & 1 == 1
  }

  /** Halves swapped, then quarters, down to single bits. */
  function Reversed(w: bv32): bv32 {
    var a := (w >> 16) | (w << 16);
    var b := ((a >> 8) & 0x00FF_00FF) | ((a & 0x00FF_00FF) << 8);
    var c := ((b >> 4) & 0x0F0F_0F0F) | ((b & 0x0F0F_0F0F) << 4);
    var d := ((c >> 2) & 0x3333_3333) | ((c & 0x3333_3333) << 2);
    ((d >> 1) & 0x5555_5555) | ((d & 0x5555_5555) << 1)
  }

  predicate Even(a: bool, b: bool, c: bool, d: bool) { (a == b) == (c == d) }

  /** Bit by bit: a right shift drops bit 0, and place 30 is set if bit 31 was or if an even number of bits 0, 7, 15 and
      23 were. */
  lemma RightBits(w: bv32, i: bv32)
    requires i < 32
    ensures Bit(StepRight(w), i) <==>
      if i == 31 then false
      else if i == 30 then Bit(w, 31) || Even(Bit(w, 0), Bit(w, 7), Bit(w, 15), Bit(w, 23))
      else Bit(w, i + 1)
  {
  }

  /** A left shift drops bit 31, and place 1 is set if bit 0 was or if an even number of bits 31, 24, 16 and 8 were. */
  lemma LeftBits(w: bv32, i: bv32)
    requires i < 32
    ensures Bit(StepLeft(w), i) <==>
      if i == 0 then false
      else if i == 1 then Bit(w, 0) || Even(Bit(w, 31), Bit(w, 24), Bit(w, 16), Bit(w, 8))
      else Bit(w, i - 1)
  {
  }

  lemma ReversedBits(w: bv32, i: bv32)
    requires i < 32
    ensures Bit(Reversed(w), i) == Bit(w, 31 - i)
  {
  }

  /** The first `i` bits from the top of the mirror image. */
  function Top(w: bv32, i: bv32): bv32
    requires i <= 32
  {
    Reversed(w) & !(0xFFFF_FFFF >> i)
  }

  lemma TopHigh(w: bv32, i: bv32)
    requires i < 16
    ensures Top(w, i) | ((w & (1 << i)) << (31 - i - i)) == Top(w, i + 1)
  {
  }

  lemma TopLow(w: bv32, i: bv32)
    requires 16 <= i < 31
    ensures Top(w, i) | ((w & (1 << i)) >> (i + i - 31)) == Top(w, i + 1)
  {
  }

  lemma TopEnds(w: bv32)
    ensures Top(w, 0) == 0 && Top(w, 32) == Reversed(w)
    ensures Top(w, 31) | (((w & (1 << 31)) >> 31) & 1) == Top(w, 32)
  {
  }

  method BitRev(data: bv32) returns (wk: bv32)
    ensures wk == Reversed(data)
  {
    var i: bv32, j: bv32, k: bv32 := 0, 1, 0;
    wk := 0;
    TopEnds(data);
    hide Top, Reversed;
    while i < 32
      invariant i <= 32 && wk == Top(data, i)
      invariant (i <= 16 ==> k == i && j == 1) && (16 < i < 32 ==> j == i + i - 31)
      decreases 32 - i
    {
      if i > 15 {
        if i == 31 {
          wk := wk | (((data & (1 << 31)) >> 31) & 1);
        } else {
          TopLow(data, i);
          wk := wk | ((data & (1 << i)) >> j);
          j := j + 2;
        }
      } else {
        TopHigh(data, i);
        wk := wk | ((data & (1 << i)) << (31 - i - k));
        k := k + 1;
      }
      i := i + 1;
    }
  }

  lemma ReversedTwice(w: bv32)
    ensures Reversed(Reversed(w)) == w
  {
  }

  lemma StepMirrors(w: bv32)
    ensures Reversed(StepRight(w)) == StepLeft(Reversed(w))
  {
  }

  /** The two registers are mirror images. */
  lemma {:induction false} Mirrors(w: bv32, n: nat)
    ensures Reversed(Rights(w, n)) == Lefts(Reversed(w), n)
  {
    if n > 0 {
      Mirrors(w, n - 1);
      StepMirrors(Rights(w, n - 1));
    }
  }

  /** On 31-bit values a step can be taken back. */
  function StepBack(w: bv32): bv32 {
    var v := w << 1;
    var lost := !((w >> 30) ^ (v >> 7) ^ (v >> 15) ^ (v >> 23)) & 1;
    (v & 0x7FFF_FFFE) | lost
  }

  lemma StepUndone(w: bv32)
    requires w < 0x8000_0000
    ensures StepRight(w) < 0x8000_0000 && StepBack(StepRight(w)) == w
  {
  }

  lemma {:induction false} RightsOneToOne(v: bv32, w: bv32, n: nat)
    requires v < 0x8000_0000 && w < 0x8000_0000 && Rights(v, n) == Rights(w, n)
    ensures v == w
  {
    if n > 0 {
      RightsBelow(v, n - 1);
      RightsBelow(w, n - 1);
      StepUndone(Rights(v, n - 1));
      StepUndone(Rights(w, n - 1));
      RightsOneToOne(v, w, n - 1);
    }
  }

  lemma {:induction false} RightsBelow(w: bv32, n: nat)
    requires w < 0x8000_0000
    ensures Rights(w, n) < 0x8000_0000
  {
    if n > 0 {
      RightsBelow(w, n - 1);
      StepUndone(Rights(w, n - 1));
    }
  }

  lemma {:induction false} FirstStep(w: bv32, n: nat)
    requires n > 0
    ensures Rights(w, n) == Rights(StepRight(w), n - 1)
  {
    if n > 1 { FirstStep(w, n - 1); }
  }

  lemma StepBelow(w: bv32)
    ensures StepRight(w) < 0x8000_0000
  {
  }

  /** The bit let in by a right shift, before the mask. */
  function Fed(w: bv32): bv32 {
    !(w ^ (w >> 7) ^ (w >> 15) ^ (w >> 23)) & 1
  }

  /** `v` and `w` differ at most in bits 0 and 31, and place 30 ends up the same: it gets the top bit or the bit let
      in. */
  predicate Merge(v: bv32, w: bv32) {
    v & 0x7FFF_FFFE == w & 0x7FFF_FFFE && (v >> 31) | Fed(v) == (w >> 31) | Fed(w)
  }

  lemma StepParts(w: bv32)
    ensures StepRight(w) & 0x3FFF_FFFF == (w & 0x7FFF_FFFE) >> 1
    ensures StepRight(w) >> 30 == (w >> 31) | Fed(w)
  {
  }

  lemma SameParts(v: bv32, w: bv32)
    ensures v == w <==> v & 0x3FFF_FFFF == w & 0x3FFF_FFFF && v >> 30 == w >> 30
  {
  }

  lemma EvenHalves(v: bv32, w: bv32)
    ensures (v & 0x7FFF_FFFE) >> 1 == (w & 0x7FFF_FFFE) >> 1 <==> v & 0x7FFF_FFFE == w & 0x7FFF_FFFE
  {
  }

  lemma StepMergesIff(v: bv32, w: bv32)
    ensures StepRight(v) == StepRight(w) <==> Merge(v, w)
  {
    StepParts(v);
    StepParts(w);
    SameParts(StepRight(v), StepRight(w));
    EvenHalves(v, w);
    hide StepRight, Fed;
  }

  /** Over all 32-bit words two can collide, in the first step and in no other: those that merge there. */
  lemma CollisionsIff(v: bv32, w: bv32, n: nat)
    requires n > 0
    ensures Rights(v, n) == Rights(w, n) <==> Merge(v, w)
  {
    FirstStep(v, n);
    FirstStep(w, n);
    StepBelow(v);
    StepBelow(w);
    StepMergesIff(v, w);
    if Rights(v, n) == Rights(w, n) { RightsOneToOne(StepRight(v), StepRight(w), n - 1); }
  }

  lemma TopBitLost()
    ensures StepRight(0) == StepRight(0x8000_0000)
  {
  }

  // ----- random numbers

  const MULTIPLIER: nat := 1_103_515_245
  const INCREMENT: nat := 12_345
  const WIDTH32: nat := 0x1_0000_0000
  const WIDTH64: nat := 0x1_0000_0000_0000_0000

  /** The generator's word after `k` draws, for an `unsigned long` of `m` values. */
  function State(seed: nat, k: nat, m: nat): nat
    requires m > 0
  {
    if k == 0 then seed % m else (State(seed, k - 1, m) * MULTIPLIER + INCREMENT) % m
  }

  /** Fifteen bits of the word. */
  function Draw(x: nat): nat { x / 65_536 % WIDTH32 % 32_768 }

  lemma Reduced(x: nat)
    ensures (x % WIDTH32 * MULTIPLIER + INCREMENT) % WIDTH32 == (x * MULTIPLIER + INCREMENT) % WIDTH32
  {
    var q, r := x / WIDTH32, x % WIDTH32;
    var s := r * MULTIPLIER + INCREMENT;
    Divides(x * MULTIPLIER + INCREMENT, WIDTH32, q * MULTIPLIER + s / WIDTH32, s % WIDTH32);
  }

  /** The remainder by a divisor's divisor. */
  lemma Nested(x: nat, n: nat, k: nat)
    requires n > 0 && k > 0
    ensures n * k > 0 && x % (n * k) % n == x % n
  {
    assert n * k > 0 by { AtLeastOnce(n, k); }
    var a, b := x / (n * k), x % (n * k);
    var c, d := b / n, b % n;
    assert x == n * (k * a + c) + d by {
      assert x == n * k * a + b && b == n * c + d;
      assert n * (k * a + c) == n * (k * a) + n * c;
    }
    Divides(x, n, k * a + c, d);
  }

  lemma DrawIsFifteenBits(x: nat)
    ensures Draw(x) == x / 65_536 % 32_768
  {
    Nested(x / 65_536, 32_768, 131_072);
  }

  lemma Halved(x: nat)
    ensures x % WIDTH64 % WIDTH32 == x % WIDTH32
    ensures Draw(x) == Draw(x % WIDTH32)
  {
    Nested(x, WIDTH32, WIDTH32);
    DrawIsFifteenBits(x);
    DrawIsFifteenBits(x % WIDTH32);
    HighBitsDropped(x);
  }

  lemma HighBitsDropped(x: nat)
    ensures x / 65_536 % 32_768 == x % WIDTH32 / 65_536 % 32_768
  {
    var q, r := x / WIDTH32, x % WIDTH32;
    var e := r / 65_536;
    Divides(x, 65_536, 65_536 * q + e, r % 65_536);
    Divides(65_536 * q + e, 32_768, 2 * q + e / 32_768, e % 32_768);
  }

  /** A word of 32 bits and one of 64 draw the same numbers from every seed. */
  lemma {:induction false} WidthDoesNotMatter(seed: nat, k: nat)
    ensures State(seed, k, WIDTH64) % WIDTH32 == State(seed, k, WIDTH32)
    ensures Draw(State(seed, k, WIDTH64)) == Draw(State(seed, k, WIDTH32))
  {
    if k > 0 {
      WidthDoesNotMatter(seed, k - 1);
      Reduced(State(seed, k - 1, WIDTH64));
      Halved(State(seed, k - 1, WIDTH64) * MULTIPLIER + INCREMENT);
    } else {
      Halved(seed);
    }
    Halved(State(seed, k, WIDTH64));
  }

  lemma NextState(k: nat, x: nat, q: nat, y: nat)
    requires State(1, k, WIDTH32) == x && x * MULTIPLIER + INCREMENT == q * WIDTH32 + y && y < WIDTH32
    ensures State(1, k + 1, WIDTH32) == y
  {
    Divides(x * MULTIPLIER + INCREMENT, WIDTH32, q, y);
  }

  /** The numbers drawn first from the seed that the generator starts with. */
  lemma FirstDraws()
    ensures Draw(State(1, 1, WIDTH32)) == 16_838 && Draw(State(1, 2, WIDTH32)) == 5_758
    ensures Draw(State(1, 3, WIDTH32)) == 10_113 && Draw(State(1, 4, WIDTH32)) == 17_515
  {
    NextState(0, 1, 0, 1_103_527_590);
    NextState(1, 1_103_527_590, 283_531_732, 2_524_885_223);
    NextState(2, 2_524_885_223, 648_724_226, 662_824_084);
    NextState(3, 662_824_084, 170_300_826, 3_295_386_429);
  }

  class Generator {
    const width: nat
    var next: nat
    ghost var seed: nat
    ghost var draws: nat

    ghost predicate Valid()
      reads this
    {
      width > 0 && next == State(seed, draws, width)
    }

    constructor (width: nat)
      requires width > 1
      ensures Valid() && this.width == width && seed == 1 && draws == 0
    {
      this.width := width;
      next, seed, draws := 1, 1, 0;
      new;
      Divides(1, width, 0, 1);
    }

    method Srand(s: nat)
      requires Valid() && s < width
      modifies this
      ensures Valid() && seed == s && draws == 0
    {
      Divides(s, width, 0, s);
      next, seed, draws := s, s, 0;
    }

    method Rand() returns (r: nat)
      requires Valid()
      modifies this
      ensures Valid() && seed == old(seed) && draws == old(draws) + 1
      ensures r == Draw(State(seed, draws, width)) < 32_768
    {
      next := (next * MULTIPLIER + INCREMENT) % width;
      draws := draws + 1;
      r := next / 65_536 % WIDTH32 % 32_768;
    }
  }
}
