/** The folds of two real ids, pair of lengths by pair of lengths: neither their sum nor, unless the ids are
    one, their difference is a multiple of 2^64. */
module KeyPairs {
  import opened Int64
  import opened StreamHash
  import opened RealIds
  import opened Residues

  /** x leaves y on division by m, up to a multiple. */
  ghost predicate Leaves(x: int, y: int, m: int) {
    exists a :: x == a * m + y
  }

  lemma DifferenceLeaves(x: int, y: int, x': int, z: int, l: int, w: int, m: int)
    requires Leaves(x, y, m) && Leaves(x', z, m) && l <= y - z <= l + w && 0 <= w < m
    ensures Rest(x - x', l, m) <= w
  {
    var a :| x == a * m + y;
    var b :| x' == b * m + z;
    assert m * (a - b) == a * m - b * m;
    RestWithin(x - x', a - b, l, w, m);
  }

  lemma SumLeaves(x: int, y: int, x': int, z: int, l: int, w: int, m: int)
    requires Leaves(x, y, m) && Leaves(x', z, m) && l <= y + z <= l + w && 0 <= w < m
    ensures Rest(x + x', l, m) <= w
  {
    var a :| x == a * m + y;
    var b :| x' == b * m + z;
    assert m * (a + b) == a * m + b * m;
    RestWithin(x + x', a + b, l, w, m);
  }

  /** What the last u characters leave is within their bounds. */
  lemma EndLeaves(s: Id, q: nat, u: nat, m: int) returns (y: int)
    requires RealId(s, q) && u <= |s| && m == Pow31(u)
    ensures Leaves(Fold(s), y, m) && Low(55, q, u) <= y <= High(56, q, u)
  {
    SuffixWithin(s, q, u, 55, 56);
    Split(s, u);
    y := Fold(s[|s| - u..]);
  }

  lemma DifferenceRest(s: Id, q: nat, t: Id, r: nat, u: nat, l: int, w: int, m: int)
    requires RealId(s, q) && RealId(t, r) && u <= |s| && u <= |t| && m == Pow31(u) && 0 <= w < m
    requires l == Low(55, q, u) - High(56, r, u) && l + w == High(56, q, u) - Low(55, r, u)
    ensures Rest(Fold(s) - Fold(t), l, m) <= w
  {
    var y := EndLeaves(s, q, u, m);
    var z := EndLeaves(t, r, u, m);
    DifferenceLeaves(Fold(s), y, Fold(t), z, l, w, m);
  }

  lemma SumRest(s: Id, q: nat, t: Id, r: nat, u: nat, l: int, w: int, m: int)
    requires RealId(s, q) && RealId(t, r) && u <= |s| && u <= |t| && m == Pow31(u) && 0 <= w < m
    requires l == Low(55, q, u) + Low(55, r, u) && l + w == High(56, q, u) + High(56, r, u)
    ensures Rest(Fold(s) + Fold(t), l, m) <= w
  {
    var y := EndLeaves(s, q, u, m);
    var z := EndLeaves(t, r, u, m);
    SumLeaves(Fold(s), y, Fold(t), z, l, w, m);
  }

  lemma Difference11Fits(s: Id, t: Id)
    requires RealId(s, 1) && RealId(t, 1)
    ensures Difference11(Fold(s) - Fold(t)) == 1
  {
    RepTable();
    DifferenceRest(s, 1, t, 1, 15, -31742810186678555089, 63485620373357110178, 23465261991844685929951);
    DifferenceRest(s, 1, t, 1, 1, -9, 18, 31);
  }

  lemma Difference11Apart(s: Id, t: Id)
    requires RealId(s, 1) && RealId(t, 1) && Fold(s) > Fold(t)
    ensures !Multiple(Fold(s) - Fold(t))
  {
    Difference11Fits(s, t);
    Range1(s);
    Range1(t);
    if Multiple(Fold(s) - Fold(t)) {
      NoDifference11(Fold(s) - Fold(t));
    }
  }

  lemma Sum11Fits(s: Id, t: Id)
    requires RealId(s, 1) && RealId(t, 1)
    ensures Sum11(Fold(s) + Fold(t)) == 1
  {
    RepTable();
    SumRest(s, 1, t, 1, 2, 2886, 18, 961);
    SumRest(s, 1, t, 1, 9, 84606790913958, 15863773295844, 26439622160671);
  }

  lemma Sum11Apart(s: Id, t: Id)
    requires RealId(s, 1) && RealId(t, 1)
    ensures !Multiple(Fold(s) + Fold(t))
  {
    Sum11Fits(s, t);
    Range1(s);
    Range1(t);
    if Multiple(Fold(s) + Fold(t)) {
      NoSum11(Fold(s) + Fold(t));
    }
  }

  lemma Difference21Fits(s: Id, t: Id)
    requires RealId(s, 2) && RealId(t, 1)
    ensures Difference21(Fold(s) - Fold(t)) == 1
  {
    RepTable();
    DifferenceRest(s, 2, t, 1, 3, -11448, 8946, 29791);
    DifferenceRest(s, 2, t, 1, 2, 84, 297, 961);
    DifferenceRest(s, 2, t, 1, 6, -266253615, 532493280, 887503681);
    DifferenceRest(s, 2, t, 1, 5, -8591256, 17168562, 28629151);
    DifferenceRest(s, 2, t, 1, 1, -9, 18, 31);
  }

  lemma Difference21Apart(s: Id, t: Id)
    requires RealId(s, 2) && RealId(t, 1)
    ensures !Multiple(Fold(s) - Fold(t))
  {
    Difference21Fits(s, t);
    Range2(s);
    Range1(t);
    if Multiple(Fold(s) - Fold(t)) {
      NoDifference21(Fold(s) - Fold(t));
    }
  }

  lemma Sum21Fits(s: Id, t: Id)
    requires RealId(s, 2) && RealId(t, 1)
    ensures Sum21(Fold(s) + Fold(t)) == 1
  {
    RepTable();
    SumRest(s, 2, t, 1, 2, 2979, 297, 961);
    SumRest(s, 2, t, 1, 12, 2520520908123356256, 472597670273120928, 787662783788549761);
    SumRest(s, 2, t, 1, 14, 2593143416788663520185, 258825990752917442536, 756943935220796320321);
    SumRest(s, 2, t, 1, 1, 96, 18, 31);
  }

  lemma Sum21Apart(s: Id, t: Id)
    requires RealId(s, 2) && RealId(t, 1)
    ensures !Multiple(Fold(s) + Fold(t))
  {
    Sum21Fits(s, t);
    Range2(s);
    Range1(t);
    if Multiple(Fold(s) + Fold(t)) {
      NoSum21(Fold(s) + Fold(t));
    }
  }

  lemma Difference22Fits(s: Id, t: Id)
    requires RealId(s, 2) && RealId(t, 2)
    ensures Difference22(Fold(s) - Fold(t)) == 1
  {
    RepTable();
    DifferenceRest(s, 2, t, 2, 3, -288, 576, 29791);
    DifferenceRest(s, 2, t, 2, 13, -7325263889233504128, 14650527778467008256, 24417546297445042591);
  }

  lemma Difference22Apart(s: Id, t: Id)
    requires RealId(s, 2) && RealId(t, 2) && Fold(s) > Fold(t)
    ensures !Multiple(Fold(s) - Fold(t))
  {
    Difference22Fits(s, t);
    Range2(s);
    Range2(t);
    if Multiple(Fold(s) - Fold(t)) {
      NoDifference22(Fold(s) - Fold(t));
    }
  }

  lemma Sum22Fits(s: Id, t: Id)
    requires RealId(s, 2) && RealId(t, 2)
    ensures Sum22(Fold(s) + Fold(t)) == 1
  {
    RepTable();
    SumRest(s, 2, t, 2, 3, 89562, 576, 29791);
    SumRest(s, 2, t, 2, 7, 88040359386, 16507551168, 27512614111);
    SumRest(s, 2, t, 2, 8, 2729251314042, 511734605166, 852891037441);
  }

  lemma Sum22Apart(s: Id, t: Id)
    requires RealId(s, 2) && RealId(t, 2)
    ensures !Multiple(Fold(s) + Fold(t))
  {
    Sum22Fits(s, t);
    Range2(s);
    Range2(t);
    if Multiple(Fold(s) + Fold(t)) {
      NoSum22(Fold(s) + Fold(t));
    }
  }

  lemma Difference31Fits(s: Id, t: Id)
    requires RealId(s, 3) && RealId(t, 1)
    ensures Difference31(Fold(s) - Fold(t)) == 1
  {
    RepTable();
    DifferenceRest(s, 3, t, 1, 2, 84, 297, 961);
    DifferenceRest(s, 3, t, 1, 4, -366057, 285714, 923521);
    DifferenceRest(s, 3, t, 1, 14, -202665634268793942506, 258825990752917183066, 756943935220796320321);
    DifferenceRest(s, 3, t, 1, 11, -7622543069010450, 15245086137574500, 25408476896404831);
    DifferenceRest(s, 3, t, 1, 1, -9, 18, 31);
    DifferenceRest(s, 3, t, 1, 5, -8677746, 16909092, 28629151);
    DifferenceRest(s, 3, t, 1, 9, -7931886737202, 15863773028004, 26439622160671);
  }

  lemma Difference31Apart(s: Id, t: Id)
    requires RealId(s, 3) && RealId(t, 1)
    ensures !Multiple(Fold(s) - Fold(t))
  {
    Difference31Fits(s, t);
    Range3(s);
    Range1(t);
    if Multiple(Fold(s) - Fold(t)) {
      NoDifference31(Fold(s) - Fold(t));
    }
  }

  lemma Sum31Fits(s: Id, t: Id)
    requires RealId(s, 3) && RealId(t, 1)
    ensures Sum31(Fold(s) + Fold(t)) == 1
  {
    RepTable();
    SumRest(s, 3, t, 1, 4, 2865798, 285714, 923521);
    SumRest(s, 3, t, 1, 2, 2979, 297, 961);
    SumRest(s, 3, t, 1, 14, 2593143416788663433695, 258825990752917183066, 756943935220796320321);
    SumRest(s, 3, t, 1, 1, 96, 18, 31);
    SumRest(s, 3, t, 1, 6, 2839922310, 532233810, 887503681);
    SumRest(s, 3, t, 1, 3, 95235, 17595, 29791);
    SumRest(s, 3, t, 1, 9, 84606790824678, 15863773028004, 26439622160671);
  }

  lemma Sum31Apart(s: Id, t: Id)
    requires RealId(s, 3) && RealId(t, 1)
    ensures !Multiple(Fold(s) + Fold(t))
  {
    Sum31Fits(s, t);
    Range3(s);
    Range1(t);
    if Multiple(Fold(s) + Fold(t)) {
      NoSum31(Fold(s) + Fold(t));
    }
  }

  lemma Difference32Fits(s: Id, t: Id)
    requires RealId(s, 3) && RealId(t, 2)
    ensures Difference32(Fold(s) - Fold(t)) == 1
  {
    RepTable();
    DifferenceRest(s, 3, t, 2, 4, -354897, 277344, 923521);
    DifferenceRest(s, 3, t, 2, 3, 2595, 9225, 29791);
    DifferenceRest(s, 3, t, 2, 13, -7325263889233590618, 14650527778466748786, 24417546297445042591);
    DifferenceRest(s, 3, t, 2, 8, -255867389073, 511734345696, 852891037441);
    DifferenceRest(s, 3, t, 2, 1, -9, 18, 31);
    DifferenceRest(s, 3, t, 2, 6, -266328945, 532225440, 887503681);
    DifferenceRest(s, 3, t, 2, 2, -288, 576, 961);
    DifferenceRest(s, 3, t, 2, 10, -245888486172081, 491776971911712, 819628286980801);
  }

  lemma Difference32Apart(s: Id, t: Id)
    requires RealId(s, 3) && RealId(t, 2)
    ensures !Multiple(Fold(s) - Fold(t))
  {
    Difference32Fits(s, t);
    Range3(s);
    Range2(t);
    if Multiple(Fold(s) - Fold(t)) {
      NoDifference32(Fold(s) - Fold(t));
    }
  }

  lemma Sum32Fits(s: Id, t: Id)
    requires RealId(s, 3) && RealId(t, 2)
    ensures Sum32(Fold(s) + Fold(t)) == 1
  {
    RepTable();
    SumRest(s, 3, t, 2, 4, 2863008, 277344, 923521);
    SumRest(s, 3, t, 2, 3, 92445, 9225, 29791);
    SumRest(s, 3, t, 2, 14, 2422220592706548132768, 454166361132477515424, 756943935220796320321);
    SumRest(s, 3, t, 2, 7, 88040272896, 16507291698, 27512614111);
    SumRest(s, 3, t, 2, 12, 2520520908123266976, 472597670272853088, 787662783788549761);
    SumRest(s, 3, t, 2, 2, 3072, 576, 961);
    SumRest(s, 3, t, 2, 9, 84606790821888, 15863773019634, 26439622160671);
    SumRest(s, 3, t, 2, 5, 91521024, 16900722, 28629151);
  }

  lemma Sum32Apart(s: Id, t: Id)
    requires RealId(s, 3) && RealId(t, 2)
    ensures !Multiple(Fold(s) + Fold(t))
  {
    Sum32Fits(s, t);
    Range3(s);
    Range2(t);
    if Multiple(Fold(s) + Fold(t)) {
      NoSum32(Fold(s) + Fold(t));
    }
  }

  lemma Difference33Fits(s: Id, t: Id)
    requires RealId(s, 3) && RealId(t, 3)
    ensures Difference33(Fold(s) - Fold(t)) == 1
  {
    RepTable();
    DifferenceRest(s, 3, t, 3, 4, -8937, 17874, 923521);
    DifferenceRest(s, 3, t, 3, 7, -8253516114, 16507032228, 27512614111);
    DifferenceRest(s, 3, t, 3, 13, -7325263889233244658, 14650527778466489316, 24417546297445042591);
    DifferenceRest(s, 3, t, 3, 14, -227083180566238627977, 454166361132477255954, 756943935220796320321);
  }

  lemma Difference33Apart(s: Id, t: Id)
    requires RealId(s, 3) && RealId(t, 3) && Fold(s) > Fold(t)
    ensures !Multiple(Fold(s) - Fold(t))
  {
    Difference33Fits(s, t);
    Range3(s);
    Range3(t);
    if Multiple(Fold(s) - Fold(t)) {
      NoDifference33(Fold(s) - Fold(t));
    }
  }

  lemma Sum33Fits(s: Id, t: Id)
    requires RealId(s, 3) && RealId(t, 3)
    ensures Sum33(Fold(s) + Fold(t)) == 1
  {
    RepTable();
    SumRest(s, 3, t, 3, 4, 2776518, 17874, 923521);
    SumRest(s, 3, t, 3, 9, 84606790735398, 15863772760164, 26439622160671);
    SumRest(s, 3, t, 3, 5, 91434534, 16641252, 28629151);
    SumRest(s, 3, t, 3, 11, 81307126068316710, 15245086137306660, 25408476896404831);
    SumRest(s, 3, t, 3, 1, 96, 18, 31);
    SumRest(s, 3, t, 3, 7, 88040186406, 16507032228, 27512614111);
  }

  lemma Sum33Apart(s: Id, t: Id)
    requires RealId(s, 3) && RealId(t, 3)
    ensures !Multiple(Fold(s) + Fold(t))
  {
    Sum33Fits(s, t);
    Range3(s);
    Range3(t);
    if Multiple(Fold(s) + Fold(t)) {
      NoSum33(Fold(s) + Fold(t));
    }
  }
}
