/** Which multiples of 2^64 can be the sum or the difference of the folds of two real ids of up to three
    digits of sequence: none but 0. On division by some power of 31 a multiple leaves a remainder that the
    last characters of two such ids cannot make up.

    In the names, 31 stands for ids of three digits and one digit, and so on. The functions are evaluated at
    every multiple in question, some seven thousand; that is why multiples are written out. */
module Residues {
  import opened Int64
  import opened Bits

  function Rest(x: int, l: int, m: int): int
    requires m > 0
  {
    (x - l) % m
  }

  lemma RestWithin(x: int, n: int, l: int, w: int, m: int)
    requires l <= x - m * n <= l + w && w < m
    ensures Rest(x, l, m) <= w
  {
    DivModUnique(x - l, m, n, x - l - m * n);
  }

  // ---------------------------------------------------------------------------------------------
  // Two hundred multiples at a time
  // ---------------------------------------------------------------------------------------------

  /** What f comes to over ten multiples of 2^64 from x on, and over two hundred. */
  function Ten(f: int -> int, x: int): int {
    f(x) + f(x + 0x1_0000_0000_0000_0000) + f(x + 0x2_0000_0000_0000_0000) + f(x + 0x3_0000_0000_0000_0000) +
    f(x + 0x4_0000_0000_0000_0000) + f(x + 0x5_0000_0000_0000_0000) + f(x + 0x6_0000_0000_0000_0000) +
    f(x + 0x7_0000_0000_0000_0000) + f(x + 0x8_0000_0000_0000_0000) + f(x + 0x9_0000_0000_0000_0000)
  }

  function Hundred(f: int -> int, x: int): int {
    Ten(f, x) + Ten(f, x + 0xA_0000_0000_0000_0000) + Ten(f, x + 0x14_0000_0000_0000_0000) +
    Ten(f, x + 0x1E_0000_0000_0000_0000) + Ten(f, x + 0x28_0000_0000_0000_0000) +
    Ten(f, x + 0x32_0000_0000_0000_0000) + Ten(f, x + 0x3C_0000_0000_0000_0000) +
    Ten(f, x + 0x46_0000_0000_0000_0000) + Ten(f, x + 0x50_0000_0000_0000_0000) +
    Ten(f, x + 0x5A_0000_0000_0000_0000)
  }

  function TwoHundred(f: int -> int, x: int): int {
    Hundred(f, x) + Hundred(f, x + 0x64_0000_0000_0000_0000)
  }

  ghost predicate NonNegative(f: int -> int) {
    forall x :: f(x) >= 0
  }

  lemma TenNonNegative(f: int -> int, x: int)
    requires NonNegative(f)
    ensures Ten(f, x) >= 0
  {}

  ghost predicate TensNonNegative(f: int -> int) {
    forall x :: Ten(f, x) >= 0
  }

  lemma TensAre(f: int -> int)
    requires NonNegative(f)
    ensures TensNonNegative(f)
  {
    forall x ensures Ten(f, x) >= 0 {
      TenNonNegative(f, x);
    }
  }

  lemma HundredNonNegative(f: int -> int, x: int)
    requires TensNonNegative(f)
    ensures Hundred(f, x) >= 0
  {}

  lemma NoneOfTen(f: int -> int, b: int, i: int, x: int)
    requires NonNegative(f) && Ten(f, b) == 0 && 0 <= i < 10 && x == b + TWO64 * i
    ensures f(x) == 0
  {
    assert i == 0 || i == 1 || i == 2 || i == 3 || i == 4 || i == 5 || i == 6 || i == 7 || i == 8 || i == 9;
  }

  lemma NoneOfTens(f: int -> int, b: int, i: int)
    requires TensNonNegative(f) && Hundred(f, b) == 0 && 0 <= i < 10
    ensures Ten(f, b + 10 * TWO64 * i) == 0
  {
    assert i == 0 || i == 1 || i == 2 || i == 3 || i == 4 || i == 5 || i == 6 || i == 7 || i == 8 || i == 9;
  }

  lemma StepsApart(b: int, x: int) returns (v: int, w: int)
    requires Multiple(x) && Multiple(b) && b <= x < b + 100 * TWO64
    ensures 0 <= v < 10 && 0 <= w < 10 && x == b + 10 * TWO64 * v + TWO64 * w
  {
    var i := (x - b) / TWO64;
    assert x - b == TWO64 * i;
    v, w := i / 10, i % 10;
    assert i == 10 * v + w;
  }

  lemma NoneOfHundred(f: int -> int, b: int, x: int)
    requires NonNegative(f) && Hundred(f, b) == 0 && Multiple(x) && Multiple(b) && b <= x < b + 100 * TWO64
    ensures f(x) == 0
  {
    var v, w := StepsApart(b, x);
    TensAre(f);
    NoneOfTens(f, b, v);
    NoneOfTen(f, b + 10 * TWO64 * v, w, x);
  }

  lemma NoneOf(f: int -> int, b: int, x: int)
    requires NonNegative(f) && TwoHundred(f, b) == 0
    requires Multiple(x) && Multiple(b) && b <= x < b + 200 * TWO64
    ensures f(x) == 0
  {
    TensAre(f);
    HundredNonNegative(f, b);
    HundredNonNegative(f, b + 100 * TWO64);
    if x < b + 100 * TWO64 {
      NoneOfHundred(f, b, x);
    } else {
      MultipleShift(b + 100 * TWO64, b, 100);
      NoneOfHundred(f, b + 100 * TWO64, x);
    }
  }

  /** f is zero at the two hundred multiples from b on. */
  ghost predicate NoneFrom(f: int -> int, b: int) {
    forall x :: Multiple(x) && b <= x < b + 200 * TWO64 ==> f(x) == 0
  }

  lemma TwoHundredTell(f: int -> int, b: int)
    requires NonNegative(f) && TwoHundred(f, b) == 0 && Multiple(b)
    ensures NoneFrom(f, b)
  {
    forall x | Multiple(x) && b <= x < b + 200 * TWO64 ensures f(x) == 0 {
      NoneOf(f, b, x);
    }
  }

  // ---------------------------------------------------------------------------------------------
  // Differences of one digit each
  // ---------------------------------------------------------------------------------------------

  /** 1 if the remainders of x are those of such a difference, 0 if not. */
  function Difference11(x: int): int {
    if Rest(x, -31742810186678555089, 23465261991844685929951) > 63485620373357110178 then 0
    else if Rest(x, -9, 31) > 18 then 0
    else 1
  }

  lemma NoDifference11(x: int)
    requires Multiple(x) && 0x1_0000_0000_0000_0000 <= x < 0x2_0000_0000_0000_0000
    ensures Difference11(x) == 0
  {
    NoneOfHundred(Difference11, 0x1_0000_0000_0000_0000, x);
  }

  // ---------------------------------------------------------------------------------------------
  // Sums of one digit each
  // ---------------------------------------------------------------------------------------------

  /** 1 if the remainders of x are those of such a sum, 0 if not. */
  function Sum11(x: int): int {
    if Rest(x, 2886, 961) > 18 then 0
    else if Rest(x, 84606790913958, 26439622160671) > 15863773295844 then 0
    else 1
  }

  lemma NoSum11(x: int)
    requires Multiple(x) && 0x104B_0000_0000_0000_0000 <= x < 0x104F_0000_0000_0000_0000
    ensures Sum11(x) == 0
  {
    NoneOfHundred(Sum11, 0x104B_0000_0000_0000_0000, x);
  }

  // ---------------------------------------------------------------------------------------------
  // Differences of two digits and one
  // ---------------------------------------------------------------------------------------------

  /** 1 if the remainders of x are those of such a difference, 0 if not. */
  function Difference21(x: int): int {
    if Rest(x, -11448, 29791) > 8946 then 0
    else if Rest(x, 84, 961) > 297 then 0
    else if Rest(x, -266253615, 887503681) > 532493280 then 0
    else if Rest(x, -8591256, 28629151) > 17168562 then 0
    else if Rest(x, -9, 31) > 18 then 0
    else 1
  }

  lemma NoDifference21(x: int)
    requires Multiple(x) && 0xF465_0000_0000_0000_0000 <= x < 0xF49D_0000_0000_0000_0000
    ensures Difference21(x) == 0
  {
    NoneOfHundred(Difference21, 0xF465_0000_0000_0000_0000, x);
  }

  // ---------------------------------------------------------------------------------------------
  // Sums of two digits and one
  // ---------------------------------------------------------------------------------------------

  /** 1 if the remainders of x are those of such a sum, 0 if not. */
  function Sum21(x: int): int {
    if Rest(x, 2979, 961) > 297 then 0
    else if Rest(x, 2520520908123356256, 787662783788549761) > 472597670273120928 then 0
    else if Rest(x, 2593143416788663520185, 756943935220796320321) > 258825990752917442536 then 0
    else if Rest(x, 96, 31) > 18 then 0
    else 1
  }

  lemma NoSum21(x: int)
    requires Multiple(x) && 0x104B2_0000_0000_0000_0000 <= x < 0x104EA_0000_0000_0000_0000
    ensures Sum21(x) == 0
  {
    NoneOfHundred(Sum21, 0x104B2_0000_0000_0000_0000, x);
  }

  // ---------------------------------------------------------------------------------------------
  // Differences of two digits each
  // ---------------------------------------------------------------------------------------------

  /** 1 if the remainders of x are those of such a difference, 0 if not. */
  function Difference22(x: int): int {
    if Rest(x, -288, 29791) > 576 then 0
    else if Rest(x, -7325263889233504128, 24417546297445042591) > 14650527778467008256 then 0
    else 1
  }

  lemma NoDifference22(x: int)
    requires Multiple(x) && 0x1_0000_0000_0000_0000 <= x < 0x36_0000_0000_0000_0000
    ensures Difference22(x) == 0
  {
    NoneOfHundred(Difference22, 0x1_0000_0000_0000_0000, x);
  }

  // ---------------------------------------------------------------------------------------------
  // Sums of two digits each
  // ---------------------------------------------------------------------------------------------

  /** 1 if the remainders of x are those of such a sum, 0 if not. */
  function Sum22(x: int): int {
    if Rest(x, 89562, 29791) > 576 then 0
    else if Rest(x, 88040359386, 27512614111) > 16507551168 then 0
    else if Rest(x, 2729251314042, 852891037441) > 511734605166 then 0
    else 1
  }

  lemma NoSum22(x: int)
    requires Multiple(x) && 0x1F91A_0000_0000_0000_0000 <= x < 0x1F986_0000_0000_0000_0000
    ensures Sum22(x) == 0
  {
    NoneOf(Sum22, 0x1F91A_0000_0000_0000_0000, x);
  }

  // ---------------------------------------------------------------------------------------------
  // Differences of three digits and one
  // ---------------------------------------------------------------------------------------------

  /** 1 if the remainders of x are those of such a difference, 0 if not. */
  function Difference31(x: int): int {
    if Rest(x, 84, 961) > 297 then 0
    else if Rest(x, -366057, 923521) > 285714 then 0
    else if Rest(x, -202665634268793942506, 756943935220796320321) > 258825990752917183066 then 0
    else if Rest(x, -7622543069010450, 25408476896404831) > 15245086137574500 then 0
    else if Rest(x, -9, 31) > 18 then 0
    else if Rest(x, -8677746, 28629151) > 16909092 then 0
    else if Rest(x, -7931886737202, 26439622160671) > 15863773028004 then 0
    else 1
  }

  lemma NoDifference31Part0()
    ensures NoneFrom(Difference31, 0x1E8CF1_0000_0000_0000_0000)
  {
    TwoHundredTell(Difference31, 0x1E8CF1_0000_0000_0000_0000);
  }

  lemma NoDifference31Part1()
    ensures NoneFrom(Difference31, 0x1E8DB9_0000_0000_0000_0000)
  {
    TwoHundredTell(Difference31, 0x1E8DB9_0000_0000_0000_0000);
  }

  lemma NoDifference31Part2()
    ensures NoneFrom(Difference31, 0x1E91E9_0000_0000_0000_0000)
  {
    TwoHundredTell(Difference31, 0x1E91E9_0000_0000_0000_0000);
  }

  lemma NoDifference31Part3()
    ensures NoneFrom(Difference31, 0x1E92B1_0000_0000_0000_0000)
  {
    TwoHundredTell(Difference31, 0x1E92B1_0000_0000_0000_0000);
  }

  lemma NoDifference31(x: int)
    requires Multiple(x)
    requires || 0x1E8CF1_0000_0000_0000_0000 <= x < 0x1E8E71_0000_0000_0000_0000
             || 0x1E91E9_0000_0000_0000_0000 <= x < 0x1E9369_0000_0000_0000_0000
    ensures Difference31(x) == 0
  {
    if x < 0x1E8DB9_0000_0000_0000_0000 {
      NoDifference31Part0();
    } else if x < 0x1E8E71_0000_0000_0000_0000 {
      NoDifference31Part1();
    } else if x < 0x1E92B1_0000_0000_0000_0000 {
      NoDifference31Part2();
    } else {
      NoDifference31Part3();
    }
  }

  // ---------------------------------------------------------------------------------------------
  // Sums of three digits and one
  // ---------------------------------------------------------------------------------------------

  /** 1 if the remainders of x are those of such a sum, 0 if not. */
  function Sum31(x: int): int {
    if Rest(x, 2865798, 923521) > 285714 then 0
    else if Rest(x, 2979, 961) > 297 then 0
    else if Rest(x, 2593143416788663433695, 756943935220796320321) > 258825990752917183066 then 0
    else if Rest(x, 96, 31) > 18 then 0
    else if Rest(x, 2839922310, 887503681) > 532233810 then 0
    else if Rest(x, 95235, 29791) > 17595 then 0
    else if Rest(x, 84606790824678, 26439622160671) > 15863773028004 then 0
    else 1
  }

  lemma NoSum31Part0()
    ensures NoneFrom(Sum31, 0x1E9D3E_0000_0000_0000_0000)
  {
    TwoHundredTell(Sum31, 0x1E9D3E_0000_0000_0000_0000);
  }

  lemma NoSum31Part1()
    ensures NoneFrom(Sum31, 0x1E9E06_0000_0000_0000_0000)
  {
    TwoHundredTell(Sum31, 0x1E9E06_0000_0000_0000_0000);
  }

  lemma NoSum31Part2()
    ensures NoneFrom(Sum31, 0x1EA236_0000_0000_0000_0000)
  {
    TwoHundredTell(Sum31, 0x1EA236_0000_0000_0000_0000);
  }

  lemma NoSum31Part3()
    ensures NoneFrom(Sum31, 0x1EA2FE_0000_0000_0000_0000)
  {
    TwoHundredTell(Sum31, 0x1EA2FE_0000_0000_0000_0000);
  }

  lemma NoSum31(x: int)
    requires Multiple(x)
    requires || 0x1E9D3E_0000_0000_0000_0000 <= x < 0x1E9EBE_0000_0000_0000_0000
             || 0x1EA236_0000_0000_0000_0000 <= x < 0x1EA3B6_0000_0000_0000_0000
    ensures Sum31(x) == 0
  {
    if x < 0x1E9E06_0000_0000_0000_0000 {
      NoSum31Part0();
    } else if x < 0x1E9EBE_0000_0000_0000_0000 {
      NoSum31Part1();
    } else if x < 0x1EA2FE_0000_0000_0000_0000 {
      NoSum31Part2();
    } else {
      NoSum31Part3();
    }
  }

  // ---------------------------------------------------------------------------------------------
  // Differences of three digits and two
  // ---------------------------------------------------------------------------------------------

  /** 1 if the remainders of x are those of such a difference, 0 if not. */
  function Difference32(x: int): int {
    if Rest(x, -354897, 923521) > 277344 then 0
    else if Rest(x, 2595, 29791) > 9225 then 0
    else if Rest(x, -7325263889233590618, 24417546297445042591) > 14650527778466748786 then 0
    else if Rest(x, -255867389073, 852891037441) > 511734345696 then 0
    else if Rest(x, -9, 31) > 18 then 0
    else if Rest(x, -266328945, 887503681) > 532225440 then 0
    else if Rest(x, -288, 961) > 576 then 0
    else if Rest(x, -245888486172081, 819628286980801) > 491776971911712 then 0
    else 1
  }

  lemma NoDifference32Part0()
    ensures NoneFrom(Difference32, 0x1D9856_0000_0000_0000_0000)
  {
    TwoHundredTell(Difference32, 0x1D9856_0000_0000_0000_0000);
  }

  lemma NoDifference32Part1()
    ensures NoneFrom(Difference32, 0x1D991E_0000_0000_0000_0000)
  {
    TwoHundredTell(Difference32, 0x1D991E_0000_0000_0000_0000);
  }

  lemma NoDifference32Part2()
    ensures NoneFrom(Difference32, 0x1D9982_0000_0000_0000_0000)
  {
    TwoHundredTell(Difference32, 0x1D9982_0000_0000_0000_0000);
  }

  lemma NoDifference32Part3()
    ensures NoneFrom(Difference32, 0x1D9D4E_0000_0000_0000_0000)
  {
    TwoHundredTell(Difference32, 0x1D9D4E_0000_0000_0000_0000);
  }

  lemma NoDifference32Part4()
    ensures NoneFrom(Difference32, 0x1D9E16_0000_0000_0000_0000)
  {
    TwoHundredTell(Difference32, 0x1D9E16_0000_0000_0000_0000);
  }

  lemma NoDifference32Part5()
    ensures NoneFrom(Difference32, 0x1D9E7A_0000_0000_0000_0000)
  {
    TwoHundredTell(Difference32, 0x1D9E7A_0000_0000_0000_0000);
  }

  lemma NoDifference32(x: int)
    requires Multiple(x)
    requires || 0x1D9856_0000_0000_0000_0000 <= x < 0x1D9A0A_0000_0000_0000_0000
             || 0x1D9D4E_0000_0000_0000_0000 <= x < 0x1D9F02_0000_0000_0000_0000
    ensures Difference32(x) == 0
  {
    if x < 0x1D991E_0000_0000_0000_0000 {
      NoDifference32Part0();
    } else if x < 0x1D99E6_0000_0000_0000_0000 {
      NoDifference32Part1();
    } else if x < 0x1D9A0A_0000_0000_0000_0000 {
      NoDifference32Part2();
    } else if x < 0x1D9E16_0000_0000_0000_0000 {
      NoDifference32Part3();
    } else if x < 0x1D9EDE_0000_0000_0000_0000 {
      NoDifference32Part4();
    } else {
      NoDifference32Part5();
    }
  }

  // ---------------------------------------------------------------------------------------------
  // Sums of three digits and two
  // ---------------------------------------------------------------------------------------------

  /** 1 if the remainders of x are those of such a sum, 0 if not. */
  function Sum32(x: int): int {
    if Rest(x, 2863008, 923521) > 277344 then 0
    else if Rest(x, 92445, 29791) > 9225 then 0
    else if Rest(x, 2422220592706548132768, 756943935220796320321) > 454166361132477515424 then 0
    else if Rest(x, 88040272896, 27512614111) > 16507291698 then 0
    else if Rest(x, 2520520908123266976, 787662783788549761) > 472597670272853088 then 0
    else if Rest(x, 3072, 961) > 576 then 0
    else if Rest(x, 84606790821888, 26439622160671) > 15863773019634 then 0
    else if Rest(x, 91521024, 28629151) > 16900722 then 0
    else 1
  }

  lemma NoSum32Part0()
    ensures NoneFrom(Sum32, 0x1F91A6_0000_0000_0000_0000)
  {
    TwoHundredTell(Sum32, 0x1F91A6_0000_0000_0000_0000);
  }

  lemma NoSum32Part1()
    ensures NoneFrom(Sum32, 0x1F926E_0000_0000_0000_0000)
  {
    TwoHundredTell(Sum32, 0x1F926E_0000_0000_0000_0000);
  }

  lemma NoSum32Part2()
    ensures NoneFrom(Sum32, 0x1F92D2_0000_0000_0000_0000)
  {
    TwoHundredTell(Sum32, 0x1F92D2_0000_0000_0000_0000);
  }

  lemma NoSum32Part3()
    ensures NoneFrom(Sum32, 0x1F969E_0000_0000_0000_0000)
  {
    TwoHundredTell(Sum32, 0x1F969E_0000_0000_0000_0000);
  }

  lemma NoSum32Part4()
    ensures NoneFrom(Sum32, 0x1F9766_0000_0000_0000_0000)
  {
    TwoHundredTell(Sum32, 0x1F9766_0000_0000_0000_0000);
  }

  lemma NoSum32Part5()
    ensures NoneFrom(Sum32, 0x1F97CA_0000_0000_0000_0000)
  {
    TwoHundredTell(Sum32, 0x1F97CA_0000_0000_0000_0000);
  }

  lemma NoSum32(x: int)
    requires Multiple(x)
    requires || 0x1F91A6_0000_0000_0000_0000 <= x < 0x1F935A_0000_0000_0000_0000
             || 0x1F969E_0000_0000_0000_0000 <= x < 0x1F9852_0000_0000_0000_0000
    ensures Sum32(x) == 0
  {
    if x < 0x1F926E_0000_0000_0000_0000 {
      NoSum32Part0();
    } else if x < 0x1F9336_0000_0000_0000_0000 {
      NoSum32Part1();
    } else if x < 0x1F935A_0000_0000_0000_0000 {
      NoSum32Part2();
    } else if x < 0x1F9766_0000_0000_0000_0000 {
      NoSum32Part3();
    } else if x < 0x1F982E_0000_0000_0000_0000 {
      NoSum32Part4();
    } else {
      NoSum32Part5();
    }
  }

  // ---------------------------------------------------------------------------------------------
  // Differences of three digits each
  // ---------------------------------------------------------------------------------------------

  /** 1 if the remainders of x are those of such a difference, 0 if not. */
  function Difference33(x: int): int {
    if Rest(x, -8937, 923521) > 17874 then 0
    else if Rest(x, -8253516114, 27512614111) > 16507032228 then 0
    else if Rest(x, -7325263889233244658, 24417546297445042591) > 14650527778466489316 then 0
    else if Rest(x, -227083180566238627977, 756943935220796320321) > 454166361132477255954 then 0
    else 1
  }

  lemma NoDifference33Part0()
    ensures NoneFrom(Difference33, 0x1_0000_0000_0000_0000)
  {
    TwoHundredTell(Difference33, 0x1_0000_0000_0000_0000);
  }

  lemma NoDifference33Part1()
    ensures NoneFrom(Difference33, 0xC9_0000_0000_0000_0000)
  {
    TwoHundredTell(Difference33, 0xC9_0000_0000_0000_0000);
  }

  lemma NoDifference33Part2()
    ensures NoneFrom(Difference33, 0x37A_0000_0000_0000_0000)
  {
    TwoHundredTell(Difference33, 0x37A_0000_0000_0000_0000);
  }

  lemma NoDifference33Part3()
    ensures NoneFrom(Difference33, 0x442_0000_0000_0000_0000)
  {
    TwoHundredTell(Difference33, 0x442_0000_0000_0000_0000);
  }

  lemma NoDifference33Part4()
    ensures NoneFrom(Difference33, 0x50A_0000_0000_0000_0000)
  {
    TwoHundredTell(Difference33, 0x50A_0000_0000_0000_0000);
  }

  lemma NoDifference33Part5()
    ensures NoneFrom(Difference33, 0x5D2_0000_0000_0000_0000)
  {
    TwoHundredTell(Difference33, 0x5D2_0000_0000_0000_0000);
  }

  lemma NoDifference33(x: int)
    requires Multiple(x)
    requires || 0x1_0000_0000_0000_0000 <= x < 0x17E_0000_0000_0000_0000
             || 0x37A_0000_0000_0000_0000 <= x < 0x676_0000_0000_0000_0000
    ensures Difference33(x) == 0
  {
    if x < 0xC9_0000_0000_0000_0000 {
      NoDifference33Part0();
    } else if x < 0x17E_0000_0000_0000_0000 {
      NoDifference33Part1();
    } else if x < 0x442_0000_0000_0000_0000 {
      NoDifference33Part2();
    } else if x < 0x50A_0000_0000_0000_0000 {
      NoDifference33Part3();
    } else if x < 0x5D2_0000_0000_0000_0000 {
      NoDifference33Part4();
    } else {
      NoDifference33Part5();
    }
  }

  // ---------------------------------------------------------------------------------------------
  // Sums of three digits each
  // ---------------------------------------------------------------------------------------------

  /** 1 if the remainders of x are those of such a sum, 0 if not. */
  function Sum33(x: int): int {
    if Rest(x, 2776518, 923521) > 17874 then 0
    else if Rest(x, 84606790735398, 26439622160671) > 15863772760164 then 0
    else if Rest(x, 91434534, 28629151) > 16641252 then 0
    else if Rest(x, 81307126068316710, 25408476896404831) > 15245086137306660 then 0
    else if Rest(x, 96, 31) > 18 then 0
    else if Rest(x, 88040186406, 27512614111) > 16507032228 then 0
    else 1
  }

  lemma NoSum33Part0()
    ensures NoneFrom(Sum33, 0x3D2A31_0000_0000_0000_0000)
  {
    TwoHundredTell(Sum33, 0x3D2A31_0000_0000_0000_0000);
  }

  lemma NoSum33Part1()
    ensures NoneFrom(Sum33, 0x3D2AF9_0000_0000_0000_0000)
  {
    TwoHundredTell(Sum33, 0x3D2AF9_0000_0000_0000_0000);
  }

  lemma NoSum33Part2()
    ensures NoneFrom(Sum33, 0x3D2BC1_0000_0000_0000_0000)
  {
    TwoHundredTell(Sum33, 0x3D2BC1_0000_0000_0000_0000);
  }

  lemma NoSum33Part3()
    ensures NoneFrom(Sum33, 0x3D2C89_0000_0000_0000_0000)
  {
    TwoHundredTell(Sum33, 0x3D2C89_0000_0000_0000_0000);
  }

  lemma NoSum33Part4()
    ensures NoneFrom(Sum33, 0x3D2F29_0000_0000_0000_0000)
  {
    TwoHundredTell(Sum33, 0x3D2F29_0000_0000_0000_0000);
  }

  lemma NoSum33Part5()
    ensures NoneFrom(Sum33, 0x3D2FF1_0000_0000_0000_0000)
  {
    TwoHundredTell(Sum33, 0x3D2FF1_0000_0000_0000_0000);
  }

  lemma NoSum33Part6()
    ensures NoneFrom(Sum33, 0x3D30B9_0000_0000_0000_0000)
  {
    TwoHundredTell(Sum33, 0x3D30B9_0000_0000_0000_0000);
  }

  lemma NoSum33Part7()
    ensures NoneFrom(Sum33, 0x3D3181_0000_0000_0000_0000)
  {
    TwoHundredTell(Sum33, 0x3D3181_0000_0000_0000_0000);
  }

  lemma NoSum33Part8()
    ensures NoneFrom(Sum33, 0x3D3421_0000_0000_0000_0000)
  {
    TwoHundredTell(Sum33, 0x3D3421_0000_0000_0000_0000);
  }

  lemma NoSum33Part9()
    ensures NoneFrom(Sum33, 0x3D34E9_0000_0000_0000_0000)
  {
    TwoHundredTell(Sum33, 0x3D34E9_0000_0000_0000_0000);
  }

  lemma NoSum33Part10()
    ensures NoneFrom(Sum33, 0x3D35B1_0000_0000_0000_0000)
  {
    TwoHundredTell(Sum33, 0x3D35B1_0000_0000_0000_0000);
  }

  lemma NoSum33Part11()
    ensures NoneFrom(Sum33, 0x3D3679_0000_0000_0000_0000)
  {
    TwoHundredTell(Sum33, 0x3D3679_0000_0000_0000_0000);
  }

  lemma NoSum33(x: int)
    requires Multiple(x)
    requires || 0x3D2A31_0000_0000_0000_0000 <= x < 0x3D2D2E_0000_0000_0000_0000
             || 0x3D2F29_0000_0000_0000_0000 <= x < 0x3D3226_0000_0000_0000_0000
             || 0x3D3421_0000_0000_0000_0000 <= x < 0x3D371E_0000_0000_0000_0000
    ensures Sum33(x) == 0
  {
    if x < 0x3D2AF9_0000_0000_0000_0000 {
      NoSum33Part0();
    } else if x < 0x3D2BC1_0000_0000_0000_0000 {
      NoSum33Part1();
    } else if x < 0x3D2C89_0000_0000_0000_0000 {
      NoSum33Part2();
    } else if x < 0x3D2D2E_0000_0000_0000_0000 {
      NoSum33Part3();
    } else if x < 0x3D2FF1_0000_0000_0000_0000 {
      NoSum33Part4();
    } else if x < 0x3D30B9_0000_0000_0000_0000 {
      NoSum33Part5();
    } else if x < 0x3D3181_0000_0000_0000_0000 {
      NoSum33Part6();
    } else if x < 0x3D3226_0000_0000_0000_0000 {
      NoSum33Part7();
    } else if x < 0x3D34E9_0000_0000_0000_0000 {
      NoSum33Part8();
    } else if x < 0x3D35B1_0000_0000_0000_0000 {
      NoSum33Part9();
    } else if x < 0x3D3679_0000_0000_0000_0000 {
      NoSum33Part10();
    } else {
      NoSum33Part11();
    }
  }
}
