/** Bitwise operations of Go on unsigned 64-bit words, the words being natural numbers. */
module Bits {
  import opened Int64

  function Pow2(k: nat): (p: nat)
    ensures p > 0
  {
    if k == 0 then 1 else 2 * Pow2(k - 1)
  }

  function And(x: nat, y: nat): nat {
    if x == 0 then 0 else (x % 2) * (y % 2) + 2 * And(x / 2, y / 2)
  }

  function Or(x: nat, y: nat): nat
    decreases x + y
  {
    if x + y == 0 then 0
    else (if x % 2 + y % 2 > 0 then 1 else 0) + 2 * Or(x / 2, y / 2)
  }

  /** Left shift drops what leaves the word. */
  function Shl(x: nat, k: nat): nat {
    x * Pow2(k) % TWO64
  }

  function Shr(x: nat, k: nat): nat {
    QuotientNat(x, Pow2(k));
    x / Pow2(k)
  }

  lemma QuotientNat(x: nat, p: nat)
    requires p > 0
    ensures x / p >= 0
  {}

  lemma ShlFits(x: nat, k: nat, p: nat)
    requires Pow2(k) == p && x * p < TWO64
    ensures Shl(x, k) == x * p
  {}

  lemma DivModUnique(x: int, d: int, q: int, r: int)
    requires d > 0 && 0 <= r < d && x == d * q + r
    ensures x / d == q && x % d == r
  {
    var q' := x / d;
    assert d * (q - q') == x % d - r;
    assert d * (q - q') == -(d * (q' - q));
    if q > q' {
      MulAtLeast(d, q - q');
    } else if q < q' {
      MulAtLeast(d, q' - q);
    }
  }

  lemma MulAtLeast(d: int, n: int)
    requires d > 0 && n > 0
    ensures d * n >= d
  {
    assert d * n == d + d * (n - 1);
    MulNonNegative(d, n - 1);
  }

  lemma MulNonNegative(d: int, n: int)
    requires d >= 0 && n >= 0
    ensures d * n >= 0
  {}

  lemma ModHalf(x: nat, p: nat)
    requires p > 0
    ensures x % (2 * p) == x % 2 + 2 * (x / 2 % p)
  {
    var h := x / 2;
    assert h == p * (h / p) + h % p;
    assert x == 2 * h + x % 2;
    assert 2 * (p * (h / p)) == (2 * p) * (h / p);
    DivModUnique(x, 2 * p, h / p, x % 2 + 2 * (h % p));
  }

  /** Masking with k ones keeps the low k bits. */
  lemma {:induction false} AndMask(x: nat, k: nat)
    ensures And(x, Pow2(k) - 1) == x % Pow2(k)
  {
    if k == 0 {
      AndZero(x);
    } else if x != 0 {
      var p := Pow2(k - 1);
      assert (2 * p - 1) / 2 == p - 1 && (2 * p - 1) % 2 == 1;
      AndMask(x / 2, k - 1);
      ModHalf(x, p);
    }
  }

  lemma {:induction false} AndZero(x: nat)
    ensures And(x, 0) == 0
  {
    if x != 0 {
      AndZero(x / 2);
    }
  }

  lemma {:induction false} OrZero(x: nat)
    ensures Or(x, 0) == x && Or(0, x) == x
  {
    if x != 0 {
      OrZero(x / 2);
    }
  }

  /** Or of disjoint fields is addition. */
  lemma {:induction false} OrDisjoint(a: nat, b: nat, k: nat)
    requires b < Pow2(k)
    ensures Or(a * Pow2(k), b) == a * Pow2(k) + b
  {
    if k == 0 {
      OrZero(a);
    } else {
      var p := Pow2(k - 1);
      var x := a * p;
      assert a * Pow2(k) == 2 * x;
      OrDisjoint(a, b / 2, k - 1);
      OrDouble(x, b);
    }
  }

  lemma OrField(a: nat, b: nat, k: nat, p: nat)
    requires Pow2(k) == p && b < p
    ensures Or(a * p, b) == p * a + b
  {
    OrDisjoint(a, b, k);
  }

  lemma OrDouble(x: nat, b: nat)
    ensures Or(2 * x, b) == b % 2 + 2 * Or(x, b / 2)
  {
    assert 2 * x / 2 == x && 2 * x % 2 == 0;
  }

  // ---------------------------------------------------------------------------------------------
  // Exclusive or
  // ---------------------------------------------------------------------------------------------

  function Xor(x: nat, y: nat): nat
    decreases x + y
  {
    if x + y == 0 then 0 else (x + y) % 2 + 2 * Xor(x / 2, y / 2)
  }

  lemma XorHalf(x: nat, y: nat)
    ensures Xor(x, y) % 2 == (x + y) % 2 && Xor(x, y) / 2 == Xor(x / 2, y / 2)
  {
    XorUnfold(x, y);
    Halves((x + y) % 2, Xor(x / 2, y / 2));
  }

  lemma {:induction false} XorZero(x: nat)
    ensures Xor(x, 0) == x && Xor(x, x) == 0
  {
    if x != 0 {
      XorZero(x / 2);
    }
  }

  lemma ParityAssociates(x: nat, y: nat, z: nat, a: nat, b: nat)
    requires a % 2 == (x + y) % 2 && b % 2 == (y + z) % 2
    ensures (a + z) % 2 == (x + b) % 2
  {}

  lemma {:induction false} XorAssociates(x: nat, y: nat, z: nat)
    ensures Xor(Xor(x, y), z) == Xor(x, Xor(y, z))
    decreases x + y + z
  {
    if x + y + z != 0 {
      var a, b := Xor(x, y), Xor(y, z);
      XorHalf(x, y);
      XorHalf(y, z);
      XorAssociates(x / 2, y / 2, z / 2);
      XorUnfold(a, z);
      XorUnfold(x, b);
      ParityAssociates(x, y, z, a, b);
    }
  }

  lemma XorUnfold(x: nat, y: nat)
    ensures Xor(x, y) == (x + y) % 2 + 2 * Xor(x / 2, y / 2)
  {
    XorZero(0);
  }

  /** The middle operand cancels. */
  lemma XorCancels(a: nat, b: nat, d: nat)
    ensures Xor(Xor(a, b), Xor(b, d)) == Xor(a, d)
  {
    XorAssociates(a, b, Xor(b, d));
    XorAssociates(b, b, d);
    XorZero(b);
    XorZeroLeft(d);
  }

  lemma {:induction false} XorZeroLeft(x: nat)
    ensures Xor(0, x) == x
  {
    if x != 0 {
      XorZeroLeft(x / 2);
    }
  }

  lemma {:induction false} XorBound(x: nat, y: nat, k: nat)
    requires x < Pow2(k) && y < Pow2(k)
    ensures Xor(x, y) < Pow2(k)
  {
    if k != 0 {
      XorBound(x / 2, y / 2, k - 1);
      XorUnfold(x, y);
    }
  }

  lemma ShrStep(x: nat, k: nat)
    requires k > 0
    ensures Shr(x, k) == Shr(x / 2, k - 1)
  {
    var p := Pow2(k - 1);
    var h := x / 2;
    assert h == p * (h / p) + h % p;
    assert 2 * (p * (h / p)) == (2 * p) * (h / p);
    DivModUnique(x, 2 * p, h / p, 2 * (h % p) + x % 2);
  }

  /** x / 2^k by repeated halving. */
  function Halved(x: nat, k: nat): nat {
    if k == 0 then x else Halved(x / 2, k - 1)
  }

  lemma {:induction false} HalvedIs(x: nat, k: nat)
    ensures Halved(x, k) == Shr(x, k)
  {
    if k != 0 {
      ShrStep(x, k);
      HalvedIs(x / 2, k - 1);
    }
  }

  lemma {:induction false} XorHalved(x: nat, y: nat, k: nat)
    ensures Halved(Xor(x, y), k) == Xor(Halved(x, k), Halved(y, k))
  {
    if k != 0 {
      XorHalf(x, y);
      XorHalved(x / 2, y / 2, k - 1);
    }
  }

  lemma ShrXor(x: nat, y: nat, k: nat)
    ensures Shr(Xor(x, y), k) == Xor(Shr(x, k), Shr(y, k))
  {
    HalvedIs(x, k);
    HalvedIs(y, k);
    HalvedIs(Xor(x, y), k);
    XorHalved(x, y, k);
  }

  lemma {:induction false} ShrAgain(x: nat, j: nat, k: nat)
    ensures Shr(Shr(x, j), k) == Shr(x, j + k)
  {
    if j != 0 {
      ShrStep(x, j);
      ShrStep(x, j + k);
      ShrAgain(x / 2, j - 1, k);
    }
  }

  lemma {:induction false} ShrOut(x: nat, k: nat)
    requires x < Pow2(k)
    ensures Shr(x, k) == 0
  {
    if k != 0 {
      ShrStep(x, k);
      ShrOut(x / 2, k - 1);
    }
  }

  /** Exclusive or acts on the lowest bit and on the rest separately. */
  lemma XorSplit(a: nat, u: nat, b: nat, v: nat)
    requires a < 2 && b < 2
    ensures Xor(a + 2 * u, b + 2 * v) == (a + b) % 2 + 2 * Xor(u, v)
  {
    Halves(a, u);
    Halves(b, v);
    SumParity(a, u, b, v);
    XorFrom(a + 2 * u, b + 2 * v, u, v, (a + b) % 2);
  }

  lemma XorFrom(s: nat, t: nat, u: nat, v: nat, low: nat)
    requires s / 2 == u && t / 2 == v && (s + t) % 2 == low
    ensures Xor(s, t) == low + 2 * Xor(u, v)
  {
    XorUnfold(s, t);
  }

  lemma SumParity(a: nat, u: nat, b: nat, v: nat)
    ensures (a + 2 * u + (b + 2 * v)) % 2 == (a + b) % 2
  {}

  lemma Halves(a: nat, u: nat)
    requires a < 2
    ensures (a + 2 * u) / 2 == u && (a + 2 * u) % 2 == a
  {}

  /** x * 2^k by repeated doubling. */
  function Scaled(x: nat, k: nat): nat {
    if k == 0 then x else 2 * Scaled(x, k - 1)
  }

  lemma {:induction false} ScaledIs(x: nat, k: nat)
    ensures Scaled(x, k) == x * Pow2(k)
  {
    if k != 0 {
      ScaledIs(x, k - 1);
      assert x * (2 * Pow2(k - 1)) == 2 * (x * Pow2(k - 1));
    }
  }

  lemma {:induction false} XorScaled(x: nat, y: nat, k: nat)
    ensures Xor(Scaled(x, k), Scaled(y, k)) == Scaled(Xor(x, y), k)
  {
    if k != 0 {
      XorScaled(x, y, k - 1);
      XorDouble(Scaled(x, k - 1), Scaled(y, k - 1));
    }
  }

  lemma XorDouble(u: nat, v: nat)
    ensures Xor(2 * u, 2 * v) == 2 * Xor(u, v)
  {
    Doubled(u);
    Doubled(v);
    DoubledSum(u, v);
    XorFrom(2 * u, 2 * v, u, v, 0);
  }

  lemma Doubled(u: nat)
    ensures 2 * u / 2 == u
  {}

  lemma DoubledSum(u: nat, v: nat)
    ensures (2 * u + 2 * v) % 2 == 0
  {
    assert 2 * u + 2 * v == 2 * (u + v);
  }

  lemma {:induction false} Pow2Sum(a: nat, b: nat)
    ensures Pow2(a + b) == Pow2(a) * Pow2(b)
  {
    if b != 0 {
      Pow2Sum(a, b - 1);
      assert Pow2(a + b) == 2 * Pow2(a + (b - 1));
    }
  }

  lemma {:induction false} Pow2Monotone(a: nat, b: nat)
    requires a <= b
    ensures Pow2(a) <= Pow2(b)
  {
    if a < b {
      Pow2Monotone(a, b - 1);
    }
  }

  lemma Pow2Sixteen()
    ensures Pow2(16) == 0x1_0000
  {
    assert Pow2(8) == 256;
    Pow2Sum(8, 8);
  }

  lemma Pow2Word()
    ensures Pow2(64) == TWO64
  {
    Pow2Sixteen();
    Pow2Sum(16, 16);
    Pow2Sum(32, 32);
  }

  /** Left shift distributes over exclusive or, overflow included. */
  lemma ShlXor(x: nat, y: nat, k: nat)
    ensures Shl(Xor(x, y), k) == Xor(Shl(x, k), Shl(y, k))
  {
    Pow2Word();
    ScaledIs(x, k);
    ScaledIs(y, k);
    ScaledIs(Xor(x, y), k);
    XorScaled(x, y, k);
    XorLow(Scaled(x, k), Scaled(y, k), 64);
  }

  lemma {:induction false} XorLow(x: nat, y: nat, k: nat)
    ensures Xor(x, y) % Pow2(k) == Xor(x % Pow2(k), y % Pow2(k))
  {
    if k == 0 {
      assert Xor(0, 0) == 0;
    } else {
      XorLow(x / 2, y / 2, k - 1);
      XorLowStep(x, y, Pow2(k - 1));
    }
  }

  lemma XorLowStep(x: nat, y: nat, p: nat)
    requires p > 0 && Xor(x / 2, y / 2) % p == Xor(x / 2 % p, y / 2 % p)
    ensures Xor(x, y) % (2 * p) == Xor(x % (2 * p), y % (2 * p))
  {
    LowOfXor(x, y, p);
    XorOfLow(x, y, p);
  }

  lemma LowOfXor(x: nat, y: nat, p: nat)
    requires p > 0
    ensures Xor(x, y) % (2 * p) == (x + y) % 2 + 2 * (Xor(x / 2, y / 2) % p)
  {
    ModHalf(Xor(x, y), p);
    XorHalf(x, y);
  }

  lemma XorOfLow(x: nat, y: nat, p: nat)
    requires p > 0
    ensures Xor(x % (2 * p), y % (2 * p)) == (x + y) % 2 + 2 * Xor(x / 2 % p, y / 2 % p)
  {
    ModHalf(x, p);
    ModHalf(y, p);
    XorSplit(x % 2, x / 2 % p, y % 2, y / 2 % p);
    ParityOfRemainders(x, y);
  }

  lemma ParityOfRemainders(x: nat, y: nat)
    ensures (x % 2 + y % 2) % 2 == (x + y) % 2
  {}
}
