/** The XorShift64* generator: pkg/random/xorshift.go. */
module XorShift {
  import opened Int64
  import opened Bits
  import opened Counting

  const MULTIPLIER: int := 2685821657736338717
  const DEFAULT_SEED: Word := 0x9e37_79b9_7f4a_7c15

  /** x ^= x >> k */
  function XorRight(x: Word, k: nat): Word {
    ShrFits(x, k);
    Pow2Word();
    XorBound(x, Shr(x, k), 64);
    Xor(x, Shr(x, k))
  }

  /** x ^= x << k */
  function XorLeft(x: Word, k: nat): Word {
    Pow2Word();
    XorBound(x, Shl(x, k), 64);
    Xor(x, Shl(x, k))
  }

  lemma {:induction false} ShrFits(x: nat, k: nat)
    ensures 0 <= Shr(x, k) <= x
  {
    if k != 0 {
      ShrStep(x, k);
      ShrFits(x / 2, k - 1);
    }
  }

  /** The state update of `next64`. */
  function Advance(s: Word): Word {
    XorRight(XorLeft(XorRight(s, 12), 25), 27)
  }

  /** The value `next64` returns from the state it has reached. */
  function Output(s: Word): Word {
    s * MULTIPLIER % TWO64
  }

  // ---------------------------------------------------------------------------------------------
  // The update is a permutation
  // ---------------------------------------------------------------------------------------------

  lemma XorTwice(x: nat, k: nat)
    ensures Xor(Xor(x, Shr(x, k)), Shr(Xor(x, Shr(x, k)), k)) == Xor(x, Shr(x, 2 * k))
  {
    ShrFits(x, k);
    ShrFits(x, 2 * k);
    ShrXor(x, Shr(x, k), k);
    ShrAgain(x, k, k);
    XorCancels(x, Shr(x, k), Shr(x, 2 * k));
  }

  /** Doing a right update twice doubles its shift. */
  lemma DoubleRight(x: Word, k: nat)
    ensures XorRight(XorRight(x, k), k) == XorRight(x, 2 * k)
  {
    XorTwice(x, k);
  }

  lemma DoubleLeft(x: Word, k: nat)
    ensures XorLeft(XorLeft(x, k), k) == XorLeft(x, 2 * k)
  {
    ShlXor(x, Shl(x, k), k);
    ShlAgain(x, k, k);
    XorCancels(x, Shl(x, k), Shl(x, 2 * k));
  }

  lemma ShlAgain(x: Word, j: nat, k: nat)
    ensures Shl(Shl(x, j), k) == Shl(x, j + k)
  {
    var p, q := Pow2(j), Pow2(k);
    Pow2Sum(j, k);
    var t := x * p / TWO64;
    assert x * p == TWO64 * t + Shl(x, j);
    ModOfMultiple(x * p, Shl(x, j), t, q);
    assert x * p * q == x * (p * q);
  }

  lemma ModOfMultiple(a: nat, b: nat, t: int, q: nat)
    requires a == TWO64 * t + b
    ensures a * q % TWO64 == b * q % TWO64
  {
    Distribute(t, b, q);
    ModShift(a * q, b * q, t * q);
  }

  lemma Distribute(t: int, b: int, q: int)
    ensures (TWO64 * t + b) * q == b * q + TWO64 * (t * q)
  {}

  lemma ModShift(x: int, y: int, k: int)
    requires x == y + TWO64 * k
    ensures x % TWO64 == y % TWO64
  {}

  lemma RightOut(x: Word, k: nat)
    requires k >= 64
    ensures XorRight(x, k) == x
  {
    Pow2Word();
    Pow2Sum(64, k - 64);
    assert Pow2(k) >= Pow2(64);
    ShrOut(x, k);
    XorZero(x);
  }

  lemma LeftOut(x: Word, k: nat)
    requires k >= 64
    ensures XorLeft(x, k) == x
  {
    Pow2Word();
    Pow2Sum(64, k - 64);
    assert x * Pow2(k) == TWO64 * (x * Pow2(k - 64));
    MultipleOf(x * Pow2(k), x * Pow2(k - 64));
    XorZero(x);
  }

  function Undo12(y: Word): Word {
    XorRight(XorRight(XorRight(y, 12), 24), 48)
  }

  function Undo25(y: Word): Word {
    XorLeft(XorLeft(y, 25), 50)
  }

  function Undo27(y: Word): Word {
    XorRight(XorRight(y, 27), 54)
  }

  lemma Inverse12(x: Word)
    ensures Undo12(XorRight(x, 12)) == x && XorRight(Undo12(x), 12) == x
  {
    Cancel12(x);
    var r := XorRight(XorRight(XorRight(x, 48), 24), 12);
    DoubleRight(XorRight(XorRight(x, 48), 24), 12);
    DoubleRight(XorRight(x, 48), 24);
    DoubleRight(x, 48);
    RightOut(x, 96);
    Cancel12(r);
  }

  lemma Cancel12(x: Word)
    ensures Undo12(XorRight(x, 12)) == x
  {
    DoubleRight(x, 12);
    DoubleRight(x, 24);
    DoubleRight(x, 48);
    RightOut(x, 96);
  }

  lemma Inverse27(x: Word)
    ensures Undo27(XorRight(x, 27)) == x && XorRight(Undo27(x), 27) == x
  {
    Cancel27(x);
    var r := XorRight(XorRight(x, 54), 27);
    DoubleRight(XorRight(x, 54), 27);
    DoubleRight(x, 54);
    RightOut(x, 108);
    Cancel27(r);
  }

  lemma Cancel27(x: Word)
    ensures Undo27(XorRight(x, 27)) == x
  {
    DoubleRight(x, 27);
    DoubleRight(x, 54);
    RightOut(x, 108);
  }

  lemma Inverse25(x: Word)
    ensures Undo25(XorLeft(x, 25)) == x && XorLeft(Undo25(x), 25) == x
  {
    Cancel25(x);
    var r := XorLeft(XorLeft(x, 50), 25);
    DoubleLeft(XorLeft(x, 50), 25);
    DoubleLeft(x, 50);
    LeftOut(x, 100);
    Cancel25(r);
  }

  lemma Cancel25(x: Word)
    ensures Undo25(XorLeft(x, 25)) == x
  {
    DoubleLeft(x, 25);
    DoubleLeft(x, 50);
    LeftOut(x, 100);
  }

  /** The state before the one given. */
  function Retreat(y: Word): Word {
    Undo12(Undo25(Undo27(y)))
  }

  /** The update is a bijection on 64-bit states that fixes zero. */
  lemma AdvanceIsBijective(s: Word)
    ensures Retreat(Advance(s)) == s && Advance(Retreat(s)) == s
    ensures Advance(s) == 0 <==> s == 0
  {
    RetreatAdvance(s);
    Inverse27(s);
    Inverse25(Undo27(s));
    Inverse12(Undo25(Undo27(s)));
    ZeroStays();
  }

  lemma RetreatAdvance(s: Word)
    ensures Retreat(Advance(s)) == s
  {
    Inverse12(s);
    Inverse25(XorRight(s, 12));
    Inverse27(XorLeft(XorRight(s, 12), 25));
  }

  lemma AdvanceInjective(s: Word, t: Word)
    requires Advance(s) == Advance(t)
    ensures s == t
  {
    AdvanceIsBijective(s);
    AdvanceIsBijective(t);
  }

  lemma AdvanceNonZero(s: Word)
    requires s != 0
    ensures Advance(s) != 0
  {
    AdvanceIsBijective(s);
  }

  lemma ZeroStays()
    ensures Advance(0) == 0 && Retreat(0) == 0
  {
    AdvanceOfZero();
    RetreatAdvance(0);
  }

  lemma AdvanceOfZero()
    ensures Advance(0) == 0
  {
    RightOfZero(12);
    RightOfZero(27);
    assert Shl(0, 25) == 0;
    XorZero(0);
  }

  lemma RightOfZero(k: nat)
    ensures XorRight(0, k) == 0
  {
    ShrFits(0, k);
    XorZero(0);
  }

  // ---------------------------------------------------------------------------------------------
  // Pure periodicity
  // ---------------------------------------------------------------------------------------------

  /** The state after n calls. */
  function After(s: Word, n: nat): Word {
    if n == 0 then s else Advance(After(s, n - 1))
  }

  lemma {:induction false} NeverZero(s: Word, n: nat)
    requires s != 0
    ensures After(s, n) != 0
  {
    if n != 0 {
      NeverZero(s, n - 1);
      AdvanceNonZero(After(s, n - 1));
    }
  }

  /** Runs that meet were equally far apart at the start. */
  lemma {:induction false} RunBack(s: Word, i: nat, d: nat)
    requires After(s, i) == After(s, i + d)
    ensures After(s, d) == s
  {
    if i != 0 {
      AdvanceInjective(After(s, i - 1), After(s, i - 1 + d));
      RunBack(s, i - 1, d);
    }
  }

  lemma StatesPositive(s: Word, xs: seq<int>)
    requires s != 0 && forall k :: 0 <= k < |xs| ==> xs[k] == After(s, k)
    ensures forall k :: 0 <= k < |xs| ==> 1 <= xs[k] <= TWO64 - 1
  {
    forall k | 0 <= k < |xs| ensures 1 <= xs[k] <= TWO64 - 1 {
      NeverZero(s, k);
    }
  }

  /** From every usable seed the generator comes back to that very seed, within 2^64 - 1 calls. */
  lemma ReturnsToSeed(s: Word) returns (n: nat)
    requires s != 0
    ensures 1 <= n <= TWO64 - 1 && After(s, n) == s
  {
    var xs: seq<int> := seq(TWO64, (i: nat) => After(s, i) as int);
    StatesPositive(s, xs);
    var i, j := Pigeonhole(xs, TWO64 - 1);
    RunBack(s, i, j - i);
    n := j - i;
  }

  lemma {:induction false} Repeats(s: Word, n: nat, k: nat)
    requires After(s, n) == s
    ensures After(s, n + k) == After(s, k)
  {
    if k != 0 {
      Repeats(s, n, k - 1);
    }
  }

  // ---------------------------------------------------------------------------------------------
  // Outputs
  // ---------------------------------------------------------------------------------------------

  const UNMULTIPLIER: int := 0x5907_1d96_d81e_cd35

  /** The multiplication is undone by the inverse of the odd constant. */
  lemma OutputUndone(s: Word)
    ensures Output(s) * UNMULTIPLIER % TWO64 == s
  {
    var j := s * MULTIPLIER / TWO64;
    ModShift(Output(s) * UNMULTIPLIER, s, QUOTIENT * s - UNMULTIPLIER * j);
  }

  const QUOTIENT: int := 934034299265436267

  /** Two outputs agree exactly when their states do, and no usable state puts out zero. */
  lemma OutputsTellStates(s: Word, t: Word)
    ensures Output(s) == Output(t) <==> s == t
    ensures Output(s) == 0 <==> s == 0
  {
    OutputUndone(s);
    OutputUndone(t);
  }

  /** `RandNBits` on a state: the state reached and the value returned. */
  function NBits(s: Word, bits: nat): (Word, Word) {
    if bits == 0 then (s, 0)
    else
      var s' := Advance(s);
      if bits >= 64 then (s', Output(s')) else (s', Masked(Output(s'), bits))
  }

  function Masked(x: Word, bits: nat): Word {
    AndMask(x, bits);
    ModSmaller(x, Pow2(bits));
    And(x, Pow2(bits) - 1)
  }

  lemma ModSmaller(x: nat, d: nat)
    requires d > 0
    ensures 0 <= x % d <= x
  {
    QuotientNonNegative(x, d);
    MulNonNegative(d, x / d);
    assert x == d * (x / d) + x % d;
  }

  lemma QuotientNonNegative(x: nat, d: nat)
    requires d > 0
    ensures x / d >= 0
  {
    var q := x / d;
    assert x == d * q + x % d && d * -q == -(d * q);
    if q < 0 {
      MulAtLeast(d, -q);
    }
  }

  /** `RandRange` on a state. */
  function Range(s: Word, min: Word, max: Word): (Word, Word) {
    if min >= max then (s, min)
    else (Advance(s), InRange(Output(Advance(s)), min, max))
  }

  function InRange(x: Word, min: Word, max: Word): Word
    requires min < max
  {
    min + x % (max - min)
  }

  /** A die: an output shows 1 and what it leaves on division by six. */
  lemma DieShows(x: Word)
    ensures InRange(x, 1, 7) == 1 + x % 6
  {}

  /** Masking b bits and drawing from [0, 2^b) are the same call. */
  lemma NBitsIsRange(s: Word, bits: nat)
    requires 1 <= bits <= 63
    ensures Pow2(bits) < TWO64 && NBits(s, bits) == Range(s, 0, Pow2(bits))
    ensures NBits(s, bits).1 < Pow2(bits)
  {
    Pow2Grows(bits);
    MaskIsRange(Output(Advance(s)), bits);
  }

  lemma MaskIsRange(x: Word, bits: nat)
    requires bits <= 63
    ensures 0 < Pow2(bits) < TWO64 && Masked(x, bits) == InRange(x, 0, Pow2(bits)) < Pow2(bits)
  {
    Pow2Grows(bits);
    AndMask(x, bits);
  }

  lemma Pow2Grows(bits: nat)
    requires bits <= 63
    ensures Pow2(bits) < TWO64
  {
    Pow2Word();
    Pow2Monotone(bits, 63);
    assert Pow2(64) == 2 * Pow2(63);
  }

  class XorShift64Star {
    var s: Word

    constructor (seed: Word)
      ensures s == if seed == 0 then 0x9e37_79b9_7f4a_7c15 else seed
      ensures s != 0
    {
      s := if seed == 0 then DEFAULT_SEED else seed;
    }

    method Next64() returns (r: Word)
      modifies this
      ensures s == Advance(old(s)) && r == Output(s)
      ensures old(s) != 0 ==> s != 0 && r != 0
    {
      AdvanceIsBijective(s);
      var x := s;
      x := XorRight(x, 12);
      x := XorLeft(x, 25);
      x := XorRight(x, 27);
      s := x;
      OutputsTellStates(x, x);
      r := x * MULTIPLIER % TWO64;
    }

    method RandNBits(bits: nat) returns (r: Word)
      requires bits < 256
      modifies this
      ensures (s, r) == NBits(old(s), bits)
      ensures bits == 0 ==> r == 0 && s == old(s)
      ensures bits >= 64 ==> r == Output(s) && s == Advance(old(s))
    {
      if bits == 0 {
        return 0;
      }
      r := Next64();
      if bits < 64 {
        r := Masked(r, bits);
      }
    }

    method Rand3Bits() returns (r: Word)
      modifies this
      ensures (s, r) == NBits(old(s), 3)
    {
      r := Next64();
      r := Masked(r, 3);
    }

    method Rand16Bits() returns (r: Word)
      modifies this
      ensures (s, r) == NBits(old(s), 16)
    {
      r := Next64();
      r := Masked(r, 16);
    }

    method RandRange(min: Word, max: Word) returns (r: Word)
      modifies this
      ensures (s, r) == Range(old(s), min, max)
      ensures min < max ==> min <= r < max && s == Advance(old(s)) && r == min + Output(s) % (max - min)
      ensures min >= max ==> r == min && s == old(s)
    {
      if min >= max {
        return min;
      }
      var x := Next64();
      r := InRange(x, min, max);
    }
  }
}
