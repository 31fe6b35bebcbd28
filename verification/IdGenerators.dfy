/** Order and instance ids: internal/data/order_id_generator.go and instance_id_generator.go.

    A clock reading is Unix milliseconds; `hash` stands for the 64-bit xxhash of the user id, about
    which nothing is assumed. */
module IdGenerators {
  import opened Int64
  import opened Bits

  const EPOCH_MS: int := 1768665600000

  /** The two's complement word of an int64 value. */
  function Unsigned(x: int): Word {
    x % TWO64
  }

  /** The fifteen bits of the user's hash that both generators keep. */
  function UserBits(hash: Word): nat {
    And(hash, 0x7FFF)
  }

  /** `orderIDGenerator.Generate`: 46 bits of time, 15 bits of user hash. */
  function OrderId(nowMs: int, hash: Word): nat {
    Or(Shl(And(Unsigned(nowMs - EPOCH_MS), 0x3FFF_FFFF_FFFF), 15), UserBits(hash))
  }

  /** `RandomBit3`: the counter is local to the call, so the first value is the only one. */
  method RandomBit3() returns (r: int)
    ensures r == 0
  {
    var p := 0;
    p := p + 1;
    var n := p - 1;
    r := n % 8;
  }

  /** `instanceIDGenerator.Generate`, before the result is read as a signed number. */
  function InstanceWord(nowMs: int, hash: Word, random: nat): nat {
    Or(Or(Shl(UserBits(hash), 48), Shl(Unsigned(nowMs - EPOCH_MS), 3)), random)
  }

  function InstanceId(nowMs: int, hash: Word): int {
    Wrap(InstanceWord(nowMs, hash, 0))
  }

  method GenerateInstanceId(nowMs: int, hash: Word) returns (id: int)
    ensures id == InstanceId(nowMs, hash)
  {
    var random := RandomBit3();
    id := Wrap(InstanceWord(nowMs, hash, random));
  }

  lemma Pow2Fifteen()
    ensures Pow2(15) == 0x8000
  {
    assert Pow2(5) == 32;
    Pow2Sum(5, 5);
    Pow2Sum(10, 5);
  }

  lemma Pow2FortyFive()
    ensures Pow2(45) == 0x2000_0000_0000
  {
    Pow2Fifteen();
    Pow2Sum(15, 15);
    Pow2Sum(30, 15);
  }

  lemma Pow2FortySix()
    ensures Pow2(46) == 0x4000_0000_0000
  {
    Pow2FortyFive();
    Pow2Sum(45, 1);
  }

  lemma Pow2FortyEight()
    ensures Pow2(3) == 8 && Pow2(48) == 0x1_0000_0000_0000
  {
    Pow2FortyFive();
    Pow2Sum(45, 3);
  }

  lemma UserBitsLow(hash: Word)
    ensures UserBits(hash) == hash % 0x8000
  {
    Pow2Fifteen();
    AndMask(hash, 15);
  }

  // ---------------------------------------------------------------------------------------------
  // Order ids
  // ---------------------------------------------------------------------------------------------

  /** The elapsed milliseconds the order id keeps. */
  function Stamp(nowMs: int): (t: nat)
    ensures t < 0x4000_0000_0000
  {
    (nowMs - EPOCH_MS) % 0x4000_0000_0000
  }

  lemma StampOfWord(nowMs: int)
    ensures And(Unsigned(nowMs - EPOCH_MS), 0x3FFF_FFFF_FFFF) == Stamp(nowMs)
  {
    Pow2FortySix();
    AndMask(Unsigned(nowMs - EPOCH_MS), 46);
    LowBitsOf(nowMs - EPOCH_MS, (nowMs - EPOCH_MS) / TWO64, Unsigned(nowMs - EPOCH_MS));
  }

  lemma LowBitsOf(x: int, j: int, u: int)
    requires x == TWO64 * j + u
    ensures x % 0x4000_0000_0000 == u % 0x4000_0000_0000
  {
    var q := u / 0x4000_0000_0000;
    DivModUnique(x, 0x4000_0000_0000, 0x4_0000 * j + q, u - 0x4000_0000_0000 * q);
  }

  lemma OrderIdValue(nowMs: int, hash: Word)
    ensures OrderId(nowMs, hash) == 0x8000 * Stamp(nowMs) + UserBits(hash)
    ensures UserBits(hash) < 0x8000
  {
    Pow2Fifteen();
    StampOfWord(nowMs);
    UserBitsLow(hash);
    ShlFits(Stamp(nowMs), 15, 0x8000);
    OrField(Stamp(nowMs), UserBits(hash), 15, 0x8000);
  }

  /** For every clock value, even one before the epoch, an order id is a 61-bit number from which
      the documented shift and mask recover the time and the user bits. */
  lemma OrderIdDecodes(nowMs: int, hash: Word)
    ensures 0 <= OrderId(nowMs, hash) < 0x2000_0000_0000_0000
    ensures Shr(OrderId(nowMs, hash), 15) == Stamp(nowMs)
    ensures And(OrderId(nowMs, hash), 0x7FFF) == UserBits(hash)
  {
    Pow2Fifteen();
    OrderIdValue(nowMs, hash);
    AndMask(OrderId(nowMs, hash), 15);
  }

  lemma OrderIdsEqualIff(n1: int, h1: Word, n2: int, h2: Word)
    ensures OrderId(n1, h1) == OrderId(n2, h2) <==> Stamp(n1) == Stamp(n2) && UserBits(h1) == UserBits(h2)
  {
    OrderIdValue(n1, h1);
    OrderIdValue(n2, h2);
  }

  /** Time starts at 2026-01-18 00:00:00 UTC: there an order id is the low fifteen bits of the user's hash, and
      each millisecond adds 2^15. */
  lemma EpochIs(ms: nat, hash: Word)
    requires ms < 0x4000_0000_0000
    ensures OrderId(1768665600000 + ms, hash) == 0x8000 * ms + hash % 0x8000
  {
    OrderIdValue(1768665600000 + ms, hash);
    StampInWindow(1768665600000 + ms);
    UserBitsLow(hash);
  }

  /** A later clock gives a larger order id, whoever the users are. */
  lemma OrderIdsIncrease(n1: int, h1: Word, n2: int, h2: Word)
    requires 0 <= n1 - EPOCH_MS < n2 - EPOCH_MS < 0x4000_0000_0000
    ensures OrderId(n1, h1) < OrderId(n2, h2)
  {
    OrderIdValue(n1, h1);
    OrderIdValue(n2, h2);
    StampInWindow(n1);
    StampInWindow(n2);
  }

  lemma StampInWindow(nowMs: int)
    requires 0 <= nowMs - EPOCH_MS < 0x4000_0000_0000
    ensures Stamp(nowMs) == nowMs - EPOCH_MS
  {}

  // ---------------------------------------------------------------------------------------------
  // Instance ids
  // ---------------------------------------------------------------------------------------------

  /** The clock leaves the user bits of an instance id alone. */
  predicate InstanceClock(nowMs: int) {
    0 <= nowMs - EPOCH_MS < 0x2000_0000_0000
  }

  lemma InstanceWordValue(nowMs: int, hash: Word)
    requires InstanceClock(nowMs)
    ensures InstanceWord(nowMs, hash, 0) == 0x1_0000_0000_0000 * UserBits(hash) + 8 * (nowMs - EPOCH_MS)
  {
    UserBitsLow(hash);
    UnsignedFits(nowMs - EPOCH_MS);
    FieldsJoin(UserBits(hash), nowMs - EPOCH_MS);
    OrZero(Or(Shl(UserBits(hash), 48), Shl(nowMs - EPOCH_MS, 3)));
  }

  lemma UnsignedFits(x: int)
    requires 0 <= x < TWO64
    ensures Unsigned(x) == x
  {}

  lemma FieldsJoin(u: nat, t: nat)
    requires u < 0x8000 && t < 0x2000_0000_0000
    ensures Or(Shl(u, 48), Shl(t, 3)) == 0x1_0000_0000_0000 * u + 8 * t
  {
    Pow2FortyEight();
    ShlFits(u, 48, 0x1_0000_0000_0000);
    ShlFits(t, 3, 8);
    OrField(u, t * 8, 48, 0x1_0000_0000_0000);
  }

  lemma FieldsDecode(word: int, u: int, t: int)
    requires word == 0x1_0000_0000_0000 * u + 8 * t
    requires 0 <= u < 0x8000 && 0 <= t < 0x2000_0000_0000
    ensures 0 <= word < TWO63
    ensures word / 0x1_0000_0000_0000 == u && word % 0x1_0000_0000_0000 == 8 * t
  {}

  lemma WrapFits(x: int)
    requires 0 <= x < TWO63
    ensures Wrap(x) == x
  {}

  /** Within the clock window an instance id is non-negative and decodes to the user bits, the
      elapsed milliseconds and a zero. */
  lemma InstanceIdDecodes(nowMs: int, hash: Word)
    requires InstanceClock(nowMs)
    ensures InstanceId(nowMs, hash) == InstanceWord(nowMs, hash, 0) >= 0
    ensures Shr(InstanceId(nowMs, hash), 48) == UserBits(hash)
    ensures InstanceId(nowMs, hash) % 0x1_0000_0000_0000 == 8 * (nowMs - EPOCH_MS)
  {
    Pow2FortyEight();
    UserBitsLow(hash);
    InstanceWordValue(nowMs, hash);
    FieldsDecode(InstanceWord(nowMs, hash, 0), UserBits(hash), nowMs - EPOCH_MS);
    WrapFits(InstanceWord(nowMs, hash, 0));
  }

  lemma InstanceIdsEqualIff(n1: int, h1: Word, n2: int, h2: Word)
    requires InstanceClock(n1) && InstanceClock(n2)
    ensures InstanceId(n1, h1) == InstanceId(n2, h2) <==> n1 == n2 && UserBits(h1) == UserBits(h2)
  {
    InstanceIdDecodes(n1, h1);
    InstanceIdDecodes(n2, h2);
    InstanceWordValue(n1, h1);
    InstanceWordValue(n2, h2);
  }

  /** Both ids of one user carry the same fifteen bits, whatever the two clock readings. */
  lemma IdsAgree(orderMs: int, instanceMs: int, hash: Word)
    requires InstanceClock(instanceMs)
    ensures InstanceId(instanceMs, hash) >= 0
    ensures And(OrderId(orderMs, hash), 0x7FFF) == Shr(InstanceId(instanceMs, hash), 48)
  {
    OrderIdDecodes(orderMs, hash);
    InstanceIdDecodes(instanceMs, hash);
  }

  /** The window is exact: as soon as three shifted bits of time reach the user field, some user's
      bits can no longer be read back. */
  lemma ClockWindowExact(nowMs: int)
    requires -0x1000_0000_0000_0000 <= nowMs - EPOCH_MS < 0x1000_0000_0000_0000
    ensures InstanceClock(nowMs) <==>
            forall hash: Word :: Shr(InstanceWord(nowMs, hash, 0), 48) == UserBits(hash)
  {
    if InstanceClock(nowMs) {
      forall hash: Word ensures Shr(InstanceWord(nowMs, hash, 0), 48) == UserBits(hash) {
        InstanceIdDecodes(nowMs, hash);
      }
    } else {
      BareClockLeaks(nowMs);
    }
  }

  lemma BareClockLeaks(nowMs: int)
    requires -0x1000_0000_0000_0000 <= nowMs - EPOCH_MS < 0x1000_0000_0000_0000
    requires !InstanceClock(nowMs)
    ensures Shr(InstanceWord(nowMs, 0, 0), 48) != UserBits(0)
  {
    Pow2FortyEight();
    var t := nowMs - EPOCH_MS;
    OrZero(Shl(Unsigned(t), 3));
    ShiftedClock(t);
    assert Shl(Unsigned(t), 3) == Unsigned(t) * 8 % TWO64;
  }

  lemma ShiftedClock(t: int)
    requires -0x1000_0000_0000_0000 <= t < 0x1000_0000_0000_0000
    requires t < 0 || t >= 0x2000_0000_0000
    ensures Unsigned(t) * 8 % TWO64 >= 0x1_0000_0000_0000
  {}
}
