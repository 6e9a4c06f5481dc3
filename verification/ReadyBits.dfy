/** The ready bitmap `runQueueBits`, a 32-bit word kept as the set of its one-bits.
    Bit 31-p says that run queue p holds a thread. */
module ReadyBits {

  predicate Has(bits: set<nat>, p: nat)
    requires p < 32
  {
    31 - p in bits
  }

  /** `bits | 1 << (31 - p)` */
  function Mark(bits: set<nat>, p: nat): set<nat>
    requires p < 32
  {
    bits + {31 - p}
  }

  /** `bits & ~(1 << (31 - p))` */
  function Unmark(bits: set<nat>, p: nat): set<nat>
    requires p < 32
  {
    bits - {31 - p}
  }

  function Scan(bits: set<nat>, p: nat): (n: nat)
    requires p <= 32
    ensures p <= n <= 32
    ensures forall r :: p <= r < n ==> !Has(bits, r)
    ensures n < 32 ==> Has(bits, n)
    decreases 32 - p
  {
    if p == 32 || Has(bits, p) then p else Scan(bits, p + 1)
  }

  /** Count leading zeros: the most urgent marked priority, or 32. */
  function Cntlzw(bits: set<nat>): (n: nat)
    ensures n <= 32
    ensures forall r :: 0 <= r < n ==> !Has(bits, r)
    ensures n < 32 ==> Has(bits, n)
  {
    Scan(bits, 0)
  }

  predicate Test(word: bv32, k: bv32)
    requires k < 32
  {
    (word >> k) & 1 == 1
  }

  /** The machine operations move one-bits exactly as `Mark` and `Unmark` move set members. */
  lemma WordOps(word: bv32, i: bv32, j: bv32)
    requires i < 32 && j < 32
    ensures Test(word | ((1 as bv32) << i), j) <==> Test(word, j) || j == i
    ensures Test(word & !((1 as bv32) << i), j) <==> Test(word, j) && j != i
  {
  }

  /** Count leading zeros of a word, by halves. */
  method CountLeadingZeros(word: bv32) returns (n: bv32)
    ensures n <= 32 && (n < 32 ==> Test(word, 31 - n))
    ensures forall k: bv32 :: k < 32 && n + k > 31 ==> !Test(word, k)
  {
    var x := word;
    if x == 0 {
      return 32;
    }
    n := 0;
    if x & 0xFFFF_0000 == 0 { n := n + 16; x := x << 16; }
    if x & 0xFF00_0000 == 0 { n := n + 8; x := x << 8; }
    if x & 0xF000_0000 == 0 { n := n + 4; x := x << 4; }
    if x & 0xC000_0000 == 0 { n := n + 2; x := x << 2; }
    if x & 0x8000_0000 == 0 { n := n + 1; }
  }
}
