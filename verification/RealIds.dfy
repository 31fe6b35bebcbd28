/** The stream ids Redis assigns until March 2030: thirteen digits of milliseconds starting with "17" or
    "18", a dash, and the sequence number within the millisecond. What is known of the fold of an id when
    only the number of its digits is. */
module RealIds {
  import opened Int64
  import opened StreamHash

  predicate Digit(c: int) {
    48 <= c <= 57
  }

  /** "17" or "18" and eleven more digits, a dash, and a sequence number of q digits. */
  predicate RealId(s: Id, q: nat) {
    && |s| == 14 + q && s[0] == 49 && (s[1] == 55 || s[1] == 56) && s[13] == 45
    && forall i :: 2 <= i < |s| && i != 13 ==> Digit(s[i])
  }

  lemma RealIdIsText(s: Id, q: nat)
    requires RealId(s, q)
    ensures IdText(s)
  {}

  // ---------------------------------------------------------------------------------------------
  // Bounds for the end of an id
  // ---------------------------------------------------------------------------------------------

  /** The least and the greatest character at place i from the end of an id with q digits of sequence and
      the second character c. */
  function Least(c: int, q: nat, i: nat): int {
    if i == q then 45 else if i == q + 12 then c else if i == q + 13 then 49 else 48
  }

  function Greatest(c: int, q: nat, i: nat): int {
    if i == q then 45 else if i == q + 12 then c else if i == q + 13 then 49 else 57
  }

  /** The fold of u characters of code 1. */
  function Rep(u: nat): nat {
    if u == 0 then 0 else 31 * Rep(u - 1) + 1
  }

  lemma {:induction false} PowIsRep(u: nat)
    ensures Pow31(u) == 30 * Rep(u) + 1
  {
    if u > 0 {
      PowIsRep(u - 1);
    }
  }

  lemma RepStep(u: nat, r: int, r': int)
    requires u > 0 && Rep(u - 1) == r && r' == 31 * r + 1
    ensures Rep(u) == r' && Pow31(u) == 30 * r' + 1
  {
    PowIsRep(u);
  }

  lemma RepTable()
    ensures Rep(1) == 1 && Pow31(1) == 31
    ensures Rep(2) == 32 && Pow31(2) == 961
    ensures Rep(3) == 993 && Pow31(3) == 29791
    ensures Rep(4) == 30784 && Pow31(4) == 923521
    ensures Rep(5) == 954305 && Pow31(5) == 28629151
    ensures Rep(6) == 29583456 && Pow31(6) == 887503681
    ensures Rep(7) == 917087137 && Pow31(7) == 27512614111
    ensures Rep(8) == 28429701248 && Pow31(8) == 852891037441
    ensures Rep(9) == 881320738689 && Pow31(9) == 26439622160671
    ensures Rep(10) == 27320942899360 && Pow31(10) == 819628286980801
    ensures Rep(11) == 846949229880161 && Pow31(11) == 25408476896404831
    ensures Rep(12) == 26255426126284992 && Pow31(12) == 787662783788549761
    ensures Rep(13) == 813918209914834753 && Pow31(13) == 24417546297445042591
    ensures Rep(14) == 25231464507359877344 && Pow31(14) == 756943935220796320321
    ensures Rep(15) == 782175399728156197665 && Pow31(15) == 23465261991844685929951
    ensures Rep(16) == 24247437391572842127616 && Pow31(16) == 727423121747185263828481
    ensures Rep(17) == 751670559138758105956097 && Pow31(17) == 22550116774162743178682911
  {
    RepStep(1, 0, 1);
    RepStep(2, 1, 32);
    RepStep(3, 32, 993);
    RepStep(4, 993, 30784);
    RepStep(5, 30784, 954305);
    RepStep(6, 954305, 29583456);
    RepStep(7, 29583456, 917087137);
    RepStep(8, 917087137, 28429701248);
    RepStep(9, 28429701248, 881320738689);
    RepStep(10, 881320738689, 27320942899360);
    RepStep(11, 27320942899360, 846949229880161);
    RepStep(12, 846949229880161, 26255426126284992);
    RepStep(13, 26255426126284992, 813918209914834753);
    RepStep(14, 813918209914834753, 25231464507359877344);
    RepStep(15, 25231464507359877344, 782175399728156197665);
    RepStep(16, 782175399728156197665, 24247437391572842127616);
    RepStep(17, 24247437391572842127616, 751670559138758105956097);
  }

  /** Bounds for the fold of the last u characters, if the second character is 55 or 56. */
  function Low(c: int, q: nat, u: nat): int {
    48 * Rep(u) - (if u > q then 3 * Pow31(q) else 0)
    + (if u <= q + 12 then 0 else if c == 55 then 7 * Pow31(q + 12) else 8 * Pow31(q + 12))
    + (if u > q + 13 then Pow31(q + 13) else 0)
  }

  function High(c: int, q: nat, u: nat): int {
    57 * Rep(u) - (if u > q then 12 * Pow31(q) else 0)
    - (if u <= q + 12 then 0 else if c == 55 then 2 * Pow31(q + 12) else Pow31(q + 12))
    - (if u > q + 13 then 8 * Pow31(q + 13) else 0)
  }

  /** One more character makes as much of a difference to the bounds. */
  lemma LowStep(c: int, q: nat, u: nat)
    requires u > 0 && (c == 55 || c == 56)
    ensures Low(c, q, u) == Least(c, q, u - 1) * Pow31(u - 1) + Low(c, q, u - 1)
  {
    PowIsRep(u - 1);
    assert Rep(u) == Rep(u - 1) + Pow31(u - 1);
  }

  lemma HighStep(c: int, q: nat, u: nat)
    requires u > 0 && (c == 55 || c == 56)
    ensures High(c, q, u) == Greatest(c, q, u - 1) * Pow31(u - 1) + High(c, q, u - 1)
  {
    PowIsRep(u - 1);
    assert Rep(u) == Rep(u - 1) + Pow31(u - 1);
  }

  /** The bounds L and H of a fold f, if its first character is x of weight p and the rest y. */
  lemma StepWithin(x: int, p: int, lo: int, hi: int, y: int, l: int, h: int, f: int, L: int, H: int)
    requires lo <= x <= hi && p >= 0 && l <= y <= h && f == x * p + y && L == lo * p + l && H == hi * p + h
    ensures L <= f <= H
  {
    assert lo * p <= x * p <= hi * p;
  }

  lemma OneFold(c: Byte)
    ensures Fold([c]) == c as int
  {
    assert [c][..0] == [];
  }

  /** One more character in front. */
  lemma FoldCons(s: Id, u: nat)
    requires 0 < u <= |s|
    ensures Fold(s[|s| - u..]) == (s[|s| - u] as int) * Pow31(u - 1) + Fold(s[|s| - u + 1..])
  {
    var c, rest := s[|s| - u], s[|s| - u + 1..];
    assert s[|s| - u..] == [c] + rest;
    OneFold(c);
    FoldConcat([c], rest);
  }

  lemma CharWithin(s: Id, q: nat, u: nat, c: int, d: int)
    requires RealId(s, q) && 0 < u <= |s| && c <= s[1] as int <= d
    ensures Least(c, q, u - 1) <= s[|s| - u] as int <= Greatest(d, q, u - 1)
  {}

  /** The bounds of the last u characters, given those of the last u - 1. */
  lemma OneMoreWithin(c: int, d: int, q: nat, u: nat, x: int, y: int, f: int)
    requires u > 0 && (c == 55 || c == 56) && (d == 55 || d == 56)
    requires Least(c, q, u - 1) <= x <= Greatest(d, q, u - 1) && Low(c, q, u - 1) <= y <= High(d, q, u - 1)
    requires f == x * Pow31(u - 1) + y
    ensures Low(c, q, u) <= f <= High(d, q, u)
  {
    LowStep(c, q, u);
    HighStep(d, q, u);
    StepWithin(x, Pow31(u - 1), Least(c, q, u - 1), Greatest(d, q, u - 1), y, Low(c, q, u - 1), High(d, q, u - 1),
               f, Low(c, q, u), High(d, q, u));
  }

  lemma {:induction false} SuffixWithin(s: Id, q: nat, u: nat, c: int, d: int)
    requires RealId(s, q) && u <= |s| && 55 <= c <= s[1] as int <= d <= 56
    ensures Low(c, q, u) <= Fold(s[|s| - u..]) <= High(d, q, u)
  {
    if u > 0 {
      SuffixWithin(s, q, u - 1, c, d);
      CharWithin(s, q, u, c, d);
      FoldCons(s, u);
      OneMoreWithin(c, d, q, u, s[|s| - u] as int, Fold(s[|s| - u + 1..]), Fold(s[|s| - u..]));
    }
  }

  lemma FoldWithin(s: Id, q: nat)
    requires RealId(s, q)
    ensures Low(s[1] as int, q, 14 + q) <= Fold(s) <= High(s[1] as int, q, 14 + q)
  {
    SuffixWithin(s, q, 14 + q, s[1] as int, s[1] as int);
    assert s[0..] == s;
  }

  lemma Split(s: Id, u: nat)
    requires u <= |s|
    ensures Fold(s) == Fold(s[..|s| - u]) * Pow31(u) + Fold(s[|s| - u..])
  {
    assert s == s[..|s| - u] + s[|s| - u..];
    FoldConcat(s[..|s| - u], s[|s| - u..]);
  }

  lemma Range1(s: Id)
    requires RealId(s, 1)
    ensures if s[1] == 55 then 38472285946254409106285 <= Fold(s) <= 38479611210143642618783
            else 38496703492551854148876 <= Fold(s) <= 38504028756441087661374
  {
    RepTable();
    FoldWithin(s, 1);
  }

  lemma Range2(s: Id)
    requires RealId(s, 2)
    ensures if s[1] == 55 then 1192640864333886682294883 <= Fold(s) <= 1192867947514452921182330
            else 1193397808269107478615204 <= Fold(s) <= 1193624891449673717502651
  {
    RepTable();
    FoldWithin(s, 2);
  }

  lemma Range3(s: Id)
    requires RealId(s, 3)
    ensures if s[1] == 55 then 36971866794350487151141421 <= Fold(s) <= 36978906372948040556652287
            else 36995332056342331837071372 <= Fold(s) <= 37002371634939885242582238
  {
    RepTable();
    FoldWithin(s, 3);
  }

  // ---------------------------------------------------------------------------------------------
  // One digit
  // ---------------------------------------------------------------------------------------------

  /** "17", a one-digit sequence: at most ten messages a millisecond, before 15 January 2027. */
  predicate Sparse(s: Id) {
    RealId(s, 1) && s[1] == 55
  }

  /** Such an id has a wrapped fold with the sign bit set, so the key is its distance to 2^64 and stays
      within a fixed band. */
  lemma OneDigitBand(s: Id)
    requires Sparse(s)
    ensures 10824552569993986925 <= Fold(s) % TWO64 <= 18149816459227499423
    ensures Hash(s) == TWO64 - Fold(s) % TWO64
    ensures 296927614482052193 <= Hash(s) <= 7622191503715564691
  {
    Range1(s);
    var r := Fold(s) - 2085 * TWO64;
    assert 10824552569993986925 <= r <= 18149816459227499423;
    RemainderIs(Fold(s), 2085, r);
    WrapHigh(Fold(s), 2085, r);
  }

  lemma WrapHigh(x: int, k: int, r: int)
    requires x == TWO64 * k + r && TWO63 < r < TWO64
    ensures Wrap(x) == r - TWO64 && Wrap(-Wrap(x)) == TWO64 - r
  {
    WrapIs(x, k + 1, r - TWO64);
    WrapIs(TWO64 - r, 0, TWO64 - r);
  }

  // ---------------------------------------------------------------------------------------------
  // Where distinctness stops
  // ---------------------------------------------------------------------------------------------

  /** A character code as a plain integer. */
  function Code(s: Id, i: nat): int
    requires i < |s|
  {
    s[i] as int
  }

  lemma FoldSix(s: Id)
    requires |s| == 6
    ensures Fold(s) == 28629151 * Code(s, 0) + 923521 * Code(s, 1) + 29791 * Code(s, 2) + 961 * Code(s, 3)
                       + 31 * Code(s, 4) + Code(s, 5)
  {
    FoldConcat(s[..3], s[3..]);
    FoldThree(s[..3]);
    FoldThree(s[3..]);
    assert s == s[..3] + s[3..];
    assert Pow31(3) == 29791;
  }

  lemma FoldThree(s: Id)
    requires |s| == 3
    ensures Fold(s) == 961 * Code(s, 0) + 31 * Code(s, 1) + Code(s, 2)
  {
    assert s[..2][..1] == s[..1] && s[..1][..0] == [];
    assert Fold(s[..1]) == Code(s, 0);
    assert Fold(s[..2]) == 31 * Fold(s[..1]) + Code(s, 1);
  }

  /** "1749562500800-0" */
  const QUIET: Id := [49, 55, 52, 57, 53, 54, 50, 53, 48, 48, 56, 48, 48, 45, 48]

  /** "1738300000000-4407" */
  const BUSY: Id := [49, 55, 51, 56, 51, 48, 48, 48, 48, 48, 48, 48, 48, 45, 52, 52, 48, 55]

  lemma QuietFold()
    ensures RealId(QUIET, 1) && Fold(QUIET) == 38475669532304151350444
  {
    var a, c := [49, 55, 52, 57, 53, 54, 50, 53, 48, 48, 56, 48], [48, 45, 48];
    assert QUIET == a + c;
    QuietHead();
    FoldConcat(a, c);
    FoldThree(c);
    assert Pow31(3) == 29791;
  }

  lemma QuietHead()
    ensures Fold([49, 55, 52, 57, 53, 54, 50, 53, 48, 48, 56, 48]) == 1291519906424898503
  {
    var a, b := [49, 55, 52, 57, 53, 54], [50, 53, 48, 48, 56, 48];
    assert [49, 55, 52, 57, 53, 54, 50, 53, 48, 48, 56, 48] == a + b;
    FoldThen(a, b);
    FoldSix(a);
    FoldSix(b);
  }

  lemma BusyFold()
    ensures RealId(BUSY, 4) && Fold(BUSY) == 1146204395214961294448987308
  {
    var a, c := [49, 55, 51, 56, 51, 48, 48, 48, 48, 48, 48, 48], [48, 45, 52, 52, 48, 55];
    assert BUSY == a + c;
    BusyHead();
    FoldThen(a, c);
    FoldSix(c);
  }

  lemma BusyHead()
    ensures Fold([49, 55, 51, 56, 51, 48, 48, 48, 48, 48, 48, 48]) == 1291492553499573928
  {
    var a, b := [49, 55, 51, 56, 51, 48], [48, 48, 48, 48, 48, 48];
    assert [49, 55, 51, 56, 51, 48, 48, 48, 48, 48, 48, 48] == a + b;
    FoldThen(a, b);
    FoldSix(a);
    FoldSix(b);
  }

  lemma FoldThen(a: Id, b: Id)
    requires |b| == 6
    ensures Fold(a + b) == 887503681 * Fold(a) + Fold(b)
  {
    FoldConcat(a, b);
    assert Pow31(3) == 29791;
    assert Pow31(6) == 29791 * Pow31(3);
  }

  /** The key is not injective on stream ids in general: the 4408th message of one millisecond
      shares its key with the first message of another. */
  lemma KeysCollide()
    ensures RealId(QUIET, 1) && RealId(BUSY, 4) && QUIET != BUSY
    ensures Hash(QUIET) == Hash(BUSY)
  {
    QuietFold();
    BusyFold();
    var n := Fold(BUSY) - Fold(QUIET);
    MultipleOf(n, 62133779);
    assert BUSY != QUIET;
    SameKeyIff(BUSY, QUIET);
  }
}
