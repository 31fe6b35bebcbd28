/** The idempotence key of a flash-sale message: `hashStreamID` of internal/service/seckill.go.

    A stream id is the byte string "milliseconds-sequence". The source folds it in base 31 with
    64-bit wrap-around and then flips the sign of a negative result. */
module StreamHash {
  import opened Int64

  type Byte = b: int | 0 <= b < 256
  type Id = seq<Byte>

  /** The fold without wrap-around. */
  function Fold(s: Id): nat {
    if s == [] then 0 else Fold(s[..|s| - 1]) * 31 + s[|s| - 1]
  }

  /** The key: wrapped fold, negated (with the wrap of int64) when negative. */
  function Hash(s: Id): int {
    var f := Wrap(Fold(s));
    if f < 0 then Wrap(-f) else f
  }

  lemma WrapStep(a: int, h: int, c: int)
    requires h == Wrap(a)
    ensures Wrap(h * 31 + c) == Wrap(a * 31 + c)
  {
    var k := (h - a) / TWO64;
    assert h == a + TWO64 * k;
    assert (h * 31 + c) - (a * 31 + c) == TWO64 * (31 * k);
    WrapUnique(h * 31 + c, a * 31 + c);
  }

  /** `hashStreamID`: every step of the loop wraps, yet the result is the unbounded fold wrapped
      once. */
  method HashStreamID(streamID: Id) returns (hash: int)
    ensures hash == Hash(streamID)
    ensures -TWO63 <= hash < TWO63
  {
    hash := 0;
    for i := 0 to |streamID|
      invariant hash == Wrap(Fold(streamID[..i]))
    {
      assert streamID[..i + 1][..i] == streamID[..i];
      WrapStep(Fold(streamID[..i]), hash, streamID[i]);
      hash := Wrap(hash * 31 + streamID[i]);
    }
    assert streamID[..|streamID|] == streamID;
    if hash < 0 {
      hash := Wrap(-hash);
    }
  }

  // ---------------------------------------------------------------------------------------------
  // When two ids share a key
  // ---------------------------------------------------------------------------------------------

  /** The magnitude of the wrapped fold is the key, save for -2^63, which is its own negation. */
  lemma HashOfWrapped(s: Id)
    ensures var f := Wrap(Fold(s)); Hash(s) == if f < 0 && f != -TWO63 then -f else f
  {}

  /** The key is non-negative with one exception, and zero only for folds divisible by 2^64. */
  lemma HashSign(s: Id)
    ensures Hash(s) < 0 <==> Multiple(Fold(s) - TWO63)
    ensures Hash(s) == 0 <==> Multiple(Fold(s))
  {
    var f := Wrap(Fold(s));
    HashOfWrapped(s);
    MultipleShift(f, Fold(s), Turns(Fold(s)));
    MultipleShift(f - TWO63, Fold(s) - TWO63, Turns(Fold(s)));
    MultipleWithin(f);
    if f == -TWO63 {
      MultipleOf(f - TWO63, -1);
    } else {
      MultipleWithin(f - TWO63);
    }
  }

  /** Exactly when two messages present the same key: their folds agree or cancel modulo 2^64. */
  lemma {:induction false} SameKeyIff(s: Id, t: Id)
    ensures Hash(s) == Hash(t) <==> Multiple(Fold(s) - Fold(t)) || Multiple(Fold(s) + Fold(t))
  {
    var f, g := Wrap(Fold(s)), Wrap(Fold(t));
    HashOfWrapped(s);
    HashOfWrapped(t);
    MultipleShift(f - g, Fold(s) - Fold(t), Turns(Fold(s)) - Turns(Fold(t)));
    MultipleShift(f + g, Fold(s) + Fold(t), Turns(Fold(s)) + Turns(Fold(t)));
    MagnitudesAgree(f, g);
  }

  lemma MagnitudesAgree(f: int, g: int)
    requires -TWO63 <= f < TWO63 && -TWO63 <= g < TWO63
    ensures Multiple(f - g) || Multiple(f + g) <==>
            (if f < 0 && f != -TWO63 then -f else f) == (if g < 0 && g != -TWO63 then -g else g)
  {
    MultipleWithin(f - g);
    if f + g != -TWO64 {
      MultipleWithin(f + g);
    }
  }

  // ---------------------------------------------------------------------------------------------
  // The unbounded fold is injective on stream ids
  // ---------------------------------------------------------------------------------------------

  /** Decimal digits and the dash. */
  predicate IdChar(c: int) {
    c == 45 || 48 <= c <= 57
  }

  predicate IdText(s: Id) {
    forall i :: 0 <= i < |s| ==> IdChar(s[i])
  }

  /** Without wrap-around no two id texts, of whatever lengths, have the same fold. */
  lemma {:induction false} FoldInjective(s: Id, t: Id)
    requires IdText(s) && IdText(t)
    requires Fold(s) == Fold(t)
    ensures s == t
  {
    if s != [] && t != [] {
      var s', t' := s[..|s| - 1], t[..|t| - 1];
      SameDigits(Fold(s'), Fold(t'), s[|s| - 1] as int, t[|t| - 1] as int);
      FoldInjective(s', t');
      assert s == s' + [s[|s| - 1]] && t == t' + [t[|t| - 1]];
    } else {
      FoldPositive(s);
      FoldPositive(t);
    }
  }

  lemma FoldPositive(s: Id)
    requires IdText(s)
    ensures s != [] ==> Fold(s) > 0
  {}

  lemma SameDigits(a: int, b: int, x: int, y: int)
    requires 31 * a + x == 31 * b + y && -12 <= x - y <= 12
    ensures a == b && x == y
  {}

  function Pow31(k: nat): nat {
    if k == 0 then 1 else 31 * Pow31(k - 1)
  }

  lemma {:induction false} FoldConcat(a: Id, b: Id)
    ensures Fold(a + b) == Fold(a) * Pow31(|b|) + Fold(b)
  {
    if b == [] {
      assert a + b == a;
    } else {
      var b' := b[..|b| - 1];
      assert (a + b)[..|a + b| - 1] == a + b';
      FoldConcat(a, b');
      assert Pow31(|b|) == 31 * Pow31(|b'|);
      assert Fold(a) * Pow31(|b|) == 31 * (Fold(a) * Pow31(|b'|));
    }
  }

  /** Texts of one length have folds at most 12 * (31^n - 1) / 30 apart. */
  lemma {:induction false} FoldGap(a: Id, b: Id)
    requires IdText(a) && IdText(b) && |a| == |b|
    ensures -12 * (Pow31(|a|) - 1) <= 30 * (Fold(a) - Fold(b)) <= 12 * (Pow31(|a|) - 1)
  {
    if a != [] {
      FoldGap(a[..|a| - 1], b[..|b| - 1]);
    }
  }

  lemma Pow31At13()
    ensures Pow31(13) == 24417546297445042591
  {
    assert Pow31(4) == 923521;
    assert Pow31(8) == 852891037441;
    assert Pow31(12) == 787662783788549761;
  }

  lemma PrefixCancels(prefix: Id, a: Id, b: Id)
    requires |a| == |b|
    ensures Fold(prefix + a) - Fold(prefix + b) == Fold(a) - Fold(b)
  {
    FoldConcat(prefix, a);
    FoldConcat(prefix, b);
  }

  /** Ids of one length that differ, but only within their last thirteen characters, keep distinct
      folds under the 64-bit wrap. */
  lemma WrappedSeparation(prefix: Id, a: Id, b: Id)
    requires IdText(a) && IdText(b)
    requires |a| == |b| <= 13 && a != b
    ensures !Multiple(Fold(prefix + a) - Fold(prefix + b))
  {
    PrefixCancels(prefix, a, b);
    FoldGap(a, b);
    Pow31Monotone(|a|, 13);
    Pow31At13();
    MultipleWithin(Fold(a) - Fold(b));
    if Fold(a) == Fold(b) {
      FoldInjective(a, b);
    }
  }

  lemma {:induction false} Pow31Monotone(m: nat, n: nat)
    requires m <= n
    ensures 1 <= Pow31(m) <= Pow31(n)
    decreases n
  {
    if m < n {
      Pow31Monotone(m, n - 1);
    } else if n > 0 {
      Pow31Monotone(n - 1, n - 1);
    }
  }
}
