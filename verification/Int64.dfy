/** Two's complement 64-bit integers, as values of `int`. */
module Int64 {

  const TWO63: int := 0x8000_0000_0000_0000
  const TWO64: int := 0x1_0000_0000_0000_0000

  /** An unsigned 64-bit value. */
  type Word = x: int | 0 <= x < TWO64

  /** Reduction of an integer to a signed 64-bit value. */
  function Wrap(x: int): (r: int)
    ensures -TWO63 <= r < TWO63
    ensures (r - x) % TWO64 == 0
  {
    var r := (x + TWO63) % TWO64 - TWO63;
    WrapIsCongruent(x);
    r
  }

  lemma WrapIsCongruent(x: int)
    ensures ((x + TWO63) % TWO64 - TWO63 - x) % TWO64 == 0
  {
    var q := (x + TWO63) / TWO64;
    assert (x + TWO63) % TWO64 - TWO63 - x == TWO64 * (-q);
  }

  /** Signed 64-bit values are determined by their residue. */
  lemma WrapUnique(x: int, y: int)
    requires (x - y) % TWO64 == 0
    ensures Wrap(x) == Wrap(y)
  {
    assert x == y + TWO64 * ((x - y) / TWO64);
  }

  lemma WrapIs(x: int, k: int, r: int)
    requires x == TWO64 * k + r && -TWO63 <= r < TWO63
    ensures Wrap(x) == r
  {
    RemainderIs(x + TWO63, k, r + TWO63);
  }

  lemma RemainderIs(x: int, k: int, r: int)
    requires x == TWO64 * k + r && 0 <= r < TWO64
    ensures x % TWO64 == r
  {}

  /** Multiples of 2^64, and how wrapping moves a value by one. */
  predicate Multiple(x: int) {
    x % TWO64 == 0
  }

  lemma MultipleOf(x: int, k: int)
    requires x == TWO64 * k
    ensures Multiple(x)
  {}

  lemma MultipleShift(x: int, y: int, k: int)
    requires x == y + TWO64 * k
    ensures Multiple(x) <==> Multiple(y)
  {}

  lemma MultipleWithin(x: int)
    requires -TWO64 < x < TWO64
    ensures Multiple(x) <==> x == 0
  {}

  function Turns(x: int): (k: int)
    ensures Wrap(x) == x + TWO64 * k
  {
    (Wrap(x) - x) / TWO64
  }
}
