/** Keys of real stream ids with at most a thousand messages a millisecond. */
module RealKeys {
  import opened Int64
  import opened StreamHash
  import opened RealIds
  import opened KeyPairs

  /** Real ids whose sequence number has at most three digits. */
  predicate Ordinary(s: Id) {
    RealId(s, 1) || RealId(s, 2) || RealId(s, 3)
  }

  lemma OrdinarySum(s: Id, t: Id)
    requires Ordinary(s) && Ordinary(t) && |s| >= |t|
    ensures !Multiple(Fold(s) + Fold(t))
  {
    if RealId(s, 3) {
      if RealId(t, 3) {
        Sum33Apart(s, t);
      } else if RealId(t, 2) {
        Sum32Apart(s, t);
      } else {
        Sum31Apart(s, t);
      }
    } else if RealId(s, 2) {
      if RealId(t, 2) {
        Sum22Apart(s, t);
      } else {
        Sum21Apart(s, t);
      }
    } else {
      Sum11Apart(s, t);
    }
  }

  lemma AheadApart(s: Id, t: Id)
    requires Ordinary(s) && Ordinary(t) && |s| >= |t| && Fold(s) > Fold(t)
    ensures !Multiple(Fold(s) - Fold(t))
  {
    if RealId(s, 3) {
      if RealId(t, 3) {
        Difference33Apart(s, t);
      } else if RealId(t, 2) {
        Difference32Apart(s, t);
      } else {
        Difference31Apart(s, t);
      }
    } else if RealId(s, 2) {
      if RealId(t, 2) {
        Difference22Apart(s, t);
      } else {
        Difference21Apart(s, t);
      }
    } else {
      Difference11Apart(s, t);
    }
  }

  lemma LongerIsAhead(s: Id, t: Id)
    requires Ordinary(s) && Ordinary(t) && |s| > |t|
    ensures Fold(s) > Fold(t)
  {
    OrdinaryRange(s);
    OrdinaryRange(t);
  }

  lemma OrdinaryRange(s: Id)
    requires Ordinary(s)
    ensures if RealId(s, 1) then Fold(s) <= 38504028756441087661374
            else if RealId(s, 2) then 1192640864333886682294883 <= Fold(s) <= 1193624891449673717502651
            else 36971866794350487151141421 <= Fold(s)
  {
    if RealId(s, 1) {
      Range1(s);
    } else if RealId(s, 2) {
      Range2(s);
    } else {
      Range3(s);
    }
  }

  lemma MultipleOpposite(x: int)
    ensures Multiple(x) <==> Multiple(-x)
  {
    if Multiple(x) {
      MultipleOf(-x, -(x / TWO64));
    }
    if Multiple(-x) {
      MultipleOf(x, -(-x / TWO64));
    }
  }

  lemma OrdinaryDifference(s: Id, t: Id)
    requires Ordinary(s) && Ordinary(t) && |s| >= |t| && s != t
    ensures !Multiple(Fold(s) - Fold(t))
  {
    if |s| > |t| {
      LongerIsAhead(s, t);
    }
    if Fold(s) > Fold(t) {
      AheadApart(s, t);
    } else if Fold(s) < Fold(t) {
      AheadApart(t, s);
      MultipleOpposite(Fold(s) - Fold(t));
    } else {
      RealIdIsText(s, |s| - 14);
      RealIdIsText(t, |t| - 14);
      FoldInjective(s, t);
    }
  }

  /** Distinct ids present distinct keys, although 64-bit wrap-around and the sign flip both act. */
  lemma OrdinaryKeysDistinct(s: Id, t: Id)
    requires Ordinary(s) && Ordinary(t) && s != t
    ensures Hash(s) != Hash(t)
  {
    SameKeyIff(s, t);
    if |s| >= |t| {
      OrdinaryDifference(s, t);
      OrdinarySum(s, t);
    } else {
      OrdinaryDifference(t, s);
      OrdinarySum(t, s);
      MultipleOpposite(Fold(t) - Fold(s));
    }
  }

  /** A key is never zero, the value that would make `CreateOrder` invent a fresh one, and never
      negative. */
  lemma OrdinaryKeyPositive(s: Id)
    requires Ordinary(s)
    ensures 0 < Hash(s) < TWO63
  {
    HashSign(s);
    OrdinarySum(s, s);
    if Multiple(Fold(s)) {
      MultipleOf(Fold(s) + Fold(s), 2 * (Fold(s) / TWO64));
    }
    if Multiple(Fold(s) - TWO63) {
      MultipleOf(Fold(s) + Fold(s), 2 * ((Fold(s) - TWO63) / TWO64) + 1);
    }
  }

  /** The bound of three digits is tight: with a fourth, ids do share keys. */
  lemma ThreeDigitsAtMost()
    ensures (forall s, t :: Ordinary(s) && Ordinary(t) && s != t ==> Hash(s) != Hash(t))
    ensures exists s, t :: Ordinary(s) && RealId(t, 4) && Hash(s) == Hash(t)
  {
    forall s, t | Ordinary(s) && Ordinary(t) && s != t ensures Hash(s) != Hash(t) {
      OrdinaryKeysDistinct(s, t);
    }
    KeysCollide();
  }
}
