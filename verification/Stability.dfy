/** Reading the pages of a list one call after the other, when the database may arrange rows with equal sort
    keys differently for each call. What is said here of any rows and any order holds for products, sorted by
    price or size, and for instances, sorted by their time of creation. */
module Stability {
  import opened Counting
  import opened Paging

  /** An order in which rows may be tied. */
  ghost predicate Preorder<R(!new)>(le: (R, R) -> bool) {
    && (forall r, s :: le(r, s) || le(s, r))
    && (forall r, s, t :: le(r, s) && le(s, t) ==> le(r, t))
  }

  lemma Transitive<R(!new)>(le: (R, R) -> bool, r: R, s: R, t: R)
    requires Preorder(le) && le(r, s) && le(s, t)
    ensures le(r, t)
  {}

  lemma Total<R(!new)>(le: (R, R) -> bool, r: R, s: R)
    requires Preorder(le)
    ensures le(r, s) || le(s, r)
  {}

  ghost predicate Sorted<R>(s: seq<R>, le: (R, R) -> bool) {
    forall i, j :: 0 <= i < j < |s| ==> le(s[i], s[j])
  }

  function Contents<R>(s: seq<R>): set<R> {
    set r | r in s
  }

  /** `a` holds all rows, each once, sorted; it is one of the answers the database may give. */
  ghost predicate Arranges<R>(a: seq<R>, all: set<R>, le: (R, R) -> bool) {
    Distinct(a) && Contents(a) == all && Sorted(a, le)
  }

  /** The order does not say which of the two comes first. */
  predicate Tied<R>(r: R, s: R, le: (R, R) -> bool) {
    le(r, s) && le(s, r)
  }

  ghost predicate NoTies<R>(a: seq<R>, le: (R, R) -> bool) {
    forall i, j :: 0 <= i < j < |a| ==> !Tied(a[i], a[j], le)
  }

  lemma {:induction false} CountRows<R>(s: seq<R>)
    requires Distinct(s)
    ensures |Contents(s)| == |s|
  {
    if s != [] {
      var rest, last := s[..|s| - 1], s[|s| - 1];
      CountRows(rest);
      assert last !in rest;
      assert Contents(s) == Contents(rest) + {last};
    }
  }

  // ---------------------------------------------------------------------------------------------
  // Other arrangements of the same answer
  // ---------------------------------------------------------------------------------------------

  /** A tie shows between neighbours. */
  lemma AdjacentTie<R(!new)>(a: seq<R>, le: (R, R) -> bool, i: nat, j: nat)
    requires Preorder(le)
    requires Sorted(a, le) && i < j < |a| && Tied(a[i], a[j], le)
    ensures Tied(a[i], a[i + 1], le)
  {
    assert le(a[i], a[i + 1]);
    if i + 1 < j {
      assert le(a[i + 1], a[j]);
      Transitive(le, a[i + 1], a[j], a[i]);
    }
  }

  function Swapped<R>(a: seq<R>, k: nat): seq<R>
    requires k + 1 < |a|
  {
    a[k := a[k + 1]][k + 1 := a[k]]
  }

  /** Where the row at position i of the swapped list stands in the list itself. */
  function Place(k: nat, i: nat): nat {
    if i == k then k + 1 else if i == k + 1 then k else i
  }

  /** Swapping two tied neighbours gives another answer to the same query. */
  lemma SwapArranges<R>(a: seq<R>, all: set<R>, le: (R, R) -> bool, k: nat)
    requires Arranges(a, all, le) && k + 1 < |a| && Tied(a[k], a[k + 1], le)
    ensures Arranges(Swapped(a, k), all, le) && Swapped(a, k) != a
  {
    var b := Swapped(a, k);
    forall i, j | 0 <= i < j < |b| ensures b[i] != b[j] && le(b[i], b[j]) {
      SwapOrdered(a, le, k, i, j);
    }
    SwapContents(a, k);
    assert b[k] != a[k];
  }

  lemma SwapOrdered<R>(a: seq<R>, le: (R, R) -> bool, k: nat, i: nat, j: nat)
    requires Distinct(a) && Sorted(a, le) && k + 1 < |a| && Tied(a[k], a[k + 1], le) && i < j < |a|
    ensures Swapped(a, k)[i] != Swapped(a, k)[j] && le(Swapped(a, k)[i], Swapped(a, k)[j])
  {
    var x, y := Place(k, i), Place(k, j);
    assert Swapped(a, k)[i] == a[x] && Swapped(a, k)[j] == a[y];
    if x < y {
      assert le(a[x], a[y]);
    } else {
      assert x == k + 1 && y == k;
    }
  }

  lemma SwapContents<R>(a: seq<R>, k: nat)
    requires k + 1 < |a|
    ensures Contents(Swapped(a, k)) == Contents(a)
  {
    var b := Swapped(a, k);
    forall r | r in a ensures r in b {
      var i :| 0 <= i < |a| && a[i] == r;
      assert b[Place(k, i)] == r;
    }
    forall r | r in b ensures r in a {
      var i :| 0 <= i < |b| && b[i] == r;
      assert a[Place(k, i)] == r;
    }
  }

  lemma {:induction false} SameArrangement<R(!new)>(a: seq<R>, b: seq<R>, le: (R, R) -> bool)
    requires Preorder(le)
    requires Distinct(a) && Distinct(b) && Contents(a) == Contents(b)
    requires NoTies(a, le) && Sorted(a, le) && Sorted(b, le)
    ensures a == b
  {
    NoContents(a);
    NoContents(b);
    if a != [] {
      SameFirst(a, b, le);
      TailIs(a);
      TailIs(b);
      SameArrangement(a[1..], b[1..], le);
      assert a == [a[0]] + a[1..] && b == [b[0]] + b[1..];
    }
  }

  lemma NoContents<R>(s: seq<R>)
    ensures s != [] ==> Contents(s) != {}
  {
    if s != [] {
      assert s[0] in Contents(s);
    }
  }

  lemma SameFirst<R(!new)>(a: seq<R>, b: seq<R>, le: (R, R) -> bool)
    requires Preorder(le)
    requires Contents(a) == Contents(b) && a != [] && b != []
    requires NoTies(a, le) && Sorted(a, le) && Sorted(b, le)
    ensures a[0] == b[0]
  {
    assert a[0] in Contents(b) && b[0] in Contents(a);
    FirstIsLeast(a, le, b[0]);
    FirstIsLeast(b, le, a[0]);
    TieTells(a, le, b[0]);
  }

  lemma FirstIsLeast<R(!new)>(s: seq<R>, le: (R, R) -> bool, r: R)
    requires Preorder(le)
    requires s != [] && r in s && Sorted(s, le)
    ensures le(s[0], r)
  {
    var i :| 0 <= i < |s| && s[i] == r;
    Total(le, r, r);
    if i > 0 {
      assert le(s[0], s[i]);
    }
  }

  lemma TieTells<R>(s: seq<R>, le: (R, R) -> bool, r: R)
    requires s != [] && r in s && NoTies(s, le)
    ensures Tied(s[0], r, le) ==> s[0] == r
  {}

  lemma TailIs<R>(s: seq<R>)
    requires Distinct(s) && s != []
    ensures Contents(s[1..]) == Contents(s) - {s[0]}
  {
    assert s == [s[0]] + s[1..];
  }

  /** An answer is the only one exactly if no two of its rows are tied. */
  lemma OneArrangementIff<R(!new)>(a: seq<R>, all: set<R>, le: (R, R) -> bool)
    requires Preorder(le)
    requires Arranges(a, all, le)
    ensures (forall b :: Arranges(b, all, le) ==> b == a) <==> NoTies(a, le)
  {
    if NoTies(a, le) {
      forall b | Arranges(b, all, le) ensures b == a {
        SameArrangement(a, b, le);
      }
    } else {
      var i, j :| 0 <= i < j < |a| && Tied(a[i], a[j], le);
      AdjacentTie(a, le, i, j);
      SwapArranges(a, all, le, i);
    }
  }

  /** Any answer with a tie has a second arrangement, and a reader that gets one page of each can see a
      row twice. */
  lemma TiesRepeatARow<R(!new)>(a: seq<R>, all: set<R>, le: (R, R) -> bool, i: nat, j: nat)
    returns (b: seq<R>)
    requires Preorder(le)
    requires Arranges(a, all, le) && i < j < |a| && Tied(a[i], a[j], le) && i + 2 < TWO32
    ensures Arranges(b, all, le)
    ensures Page(a, 1, i + 1) + Page(b, 1, i + 2) == [a[i], a[i]]
  {
    AdjacentTie(a, le, i, j);
    SwapArranges(a, all, le, i);
    b := Swapped(a, i);
    PageAt(a, 1, i + 1, i);
    PageAt(b, 1, i + 2, i + 1);
    assert Page(a, 1, i + 1) == [a[i]] && Page(b, 1, i + 2) == [a[i]];
  }

  // ---------------------------------------------------------------------------------------------
  // Each page from an arrangement of its own
  // ---------------------------------------------------------------------------------------------

  /** Page p is read from the p-th arrangement. */
  function ReadPages<R>(bs: seq<seq<R>>, size: nat): seq<R> {
    if bs == [] then [] else ReadPages(bs[..|bs| - 1], size) + Page(bs[|bs| - 1], size, |bs|)
  }

  /** What requests return, for the p-th page when the p-th arrangement holds. */
  function Reads<R>(bs: seq<seq<R>>, size: nat): seq<R> {
    if bs == [] then [] else Reads(bs[..|bs| - 1], size) + Page(bs[|bs| - 1], size, Asked(|bs|))
  }

  lemma {:induction false} ReadsArePages<R>(bs: seq<seq<R>>, size: nat)
    requires |bs| < TWO32
    ensures Reads(bs, size) == ReadPages(bs, size)
  {
    if bs != [] {
      AskedFits(|bs|);
      ReadsArePages(bs[..|bs| - 1], size);
    }
  }

  lemma {:induction false} ReadsOfOne<R>(bs: seq<seq<R>>, a: seq<R>, size: nat)
    requires forall p :: 0 <= p < |bs| ==> bs[p] == a
    ensures Reads(bs, size) == Reading(a, size, |bs|)
  {
    if bs != [] {
      ReadsOfOne(bs[..|bs| - 1], a, size);
    }
  }

  ghost predicate AllArrange<R>(bs: seq<seq<R>>, all: set<R>, le: (R, R) -> bool) {
    forall p :: 0 <= p < |bs| ==> Arranges(bs[p], all, le)
  }

  function Border(size: nat, p: nat): nat {
    size * p
  }

  /** No tie straddles the border between two pages. */
  ghost predicate BordersClear<R>(a: seq<R>, size: nat, le: (R, R) -> bool) {
    forall p: nat :: 0 < Border(size, p) < |a| ==> !Tied(a[Border(size, p) - 1], a[Border(size, p)], le)
  }

  lemma {:induction false} ContentsBound<R>(s: seq<R>)
    ensures |Contents(s)| <= |s|
  {
    if s != [] {
      ContentsBound(s[..|s| - 1]);
      ContentsAppend(s[..|s| - 1], [s[|s| - 1]], s);
      assert Contents([s[|s| - 1]]) == {s[|s| - 1]};
    }
  }

  lemma ContentsAppend<R>(a: seq<R>, b: seq<R>, s: seq<R>)
    requires s == a + b
    ensures Contents(s) == Contents(a) + Contents(b)
  {}

  /** Where the border is clear, every arrangement has the same rows before it. */
  lemma PrefixesAgree<R(!new)>(a: seq<R>, b: seq<R>, le: (R, R) -> bool, m: nat)
    requires Preorder(le)
    requires Distinct(a) && Distinct(b) && Contents(a) == Contents(b) && Sorted(a, le) && Sorted(b, le)
    requires 0 < m < |a| == |b| && !Tied(a[m - 1], a[m], le)
    ensures Contents(b[..m]) == Contents(a[..m])
  {
    CountRows(a[..m]);
    forall i | 0 <= i < m ensures b[i] in a[..m] {
      ContentsBound(b[..i]);
      if b[i] !in a[..m] {
        AllBefore(a, b, le, m, i);
        SubsetCount(Contents(a[..m]), Contents(b[..i]));
      }
    }
    CountRows(b[..m]);
    SameSize(Contents(b[..m]), Contents(a[..m]));
  }

  /** A row of b that does not belong to the first m of a stands after all that do. */
  lemma AllBefore<R(!new)>(a: seq<R>, b: seq<R>, le: (R, R) -> bool, m: nat, i: nat)
    requires Preorder(le)
    requires Contents(a) == Contents(b) && Sorted(a, le) && Sorted(b, le)
    requires 0 < m < |a| == |b| && !Tied(a[m - 1], a[m], le) && i < |b| && b[i] !in a[..m]
    ensures Contents(a[..m]) <= Contents(b[..i])
  {
    assert b[i] in Contents(a);
    var y := FindLater(a, m, b[i]);
    forall r | r in a[..m] ensures r in b[..i] {
      assert r in Contents(b);
      var j :| 0 <= j < |b| && b[j] == r;
      var x :| 0 <= x < m && a[..m][x] == r;
      StrictlyBefore(a, le, m, x, y);
      Earlier(b, le, i, j);
    }
  }

  lemma FindLater<R>(a: seq<R>, m: nat, r: R) returns (y: nat)
    requires m < |a| && r in a && r !in a[..m]
    ensures m <= y < |a| && a[y] == r
  {
    assert a == a[..m] + a[m..];
    var t :| 0 <= t < |a[m..]| && a[m..][t] == r;
    y := m + t;
  }

  lemma StrictlyBefore<R(!new)>(a: seq<R>, le: (R, R) -> bool, m: nat, x: nat, y: nat)
    requires Preorder(le)
    requires Sorted(a, le) && 0 < m < |a| && !Tied(a[m - 1], a[m], le) && x < m <= y < |a|
    ensures !le(a[y], a[x])
  {
    Total(le, a[y], a[y]);
    Total(le, a[x], a[x]);
    assert le(a[m - 1], a[m]) && (m < y ==> le(a[m], a[y])) && (x < m - 1 ==> le(a[x], a[m - 1]));
    NotAcross(le, a[x], a[m - 1], a[m], a[y]);
  }

  lemma NotAcross<R(!new)>(le: (R, R) -> bool, x: R, r: R, s: R, y: R)
    requires Preorder(le) && le(x, r) && !le(s, r) && le(s, y)
    ensures !le(y, x)
  {}

  lemma Earlier<R>(b: seq<R>, le: (R, R) -> bool, i: nat, j: nat)
    requires Sorted(b, le) && i < |b| && j < |b| && !le(b[i], b[j])
    ensures j <= i && (b[j] != b[i] ==> b[j] in b[..i])
  {
    if j < i {
      assert b[..i][j] == b[j];
    }
  }

  lemma SameSize<T>(a: set<T>, b: set<T>)
    requires a <= b && |a| == |b|
    ensures a == b
  {
    assert b == a + (b - a);
  }

  lemma SameLength<R>(a: seq<R>, b: seq<R>, all: set<R>, le: (R, R) -> bool)
    requires Arranges(a, all, le) && Arranges(b, all, le)
    ensures |a| == |b| && Contents(a) == Contents(b)
  {
    CountRows(a);
    CountRows(b);
  }

  /** Up to a page border all arrangements hold the same rows, if no tie straddles it. */
  lemma BorderAgrees<R(!new)>(a: seq<R>, b: seq<R>, all: set<R>, le: (R, R) -> bool, size: nat, p: nat)
    requires Preorder(le)
    requires Arranges(a, all, le) && Arranges(b, all, le) && BordersClear(a, size, le)
    ensures |b| == |a| && Contents(b[..Min(Border(size, p), |a|)]) == Contents(a[..Min(Border(size, p), |a|)])
  {
    SameLength(a, b, all, le);
    var m := Border(size, p);
    if 0 < m < |a| {
      PrefixesAgree(a, b, le, m);
    } else if m >= |a| {
      assert a[..|a|] == a && b[..|a|] == b;
    }
  }

  lemma {:induction false} ReadSoFar<R(!new)>(a: seq<R>, bs: seq<seq<R>>, all: set<R>,
                                      le: (R, R) -> bool, size: nat)
    requires Preorder(le)
    requires Arranges(a, all, le) && AllArrange(bs, all, le) && BordersClear(a, size, le)
    requires |bs| > 0 ==> Border(size, |bs| - 1) < TWO32
    ensures Contents(ReadPages(bs, size)) == Contents(a[..Min(Border(size, |bs|), |a|)])
    ensures |ReadPages(bs, size)| == Min(Border(size, |bs|), |a|)
  {
    if bs != [] {
      var n := |bs|;
      EarlierFits(size, n);
      ReadSoFar(a, bs[..n - 1], all, le, size);
      BorderAgrees(a, bs[n - 1], all, le, size, n - 1);
      BorderAgrees(a, bs[n - 1], all, le, size, n);
      NextPage(bs[n - 1], size, n);
      ContentsAppend(bs[n - 1][..Min(Border(size, n - 1), |a|)], Page(bs[n - 1], size, n),
                     bs[n - 1][..Min(Border(size, n), |a|)]);
      ContentsAppend(ReadPages(bs[..n - 1], size), Page(bs[n - 1], size, n), ReadPages(bs, size));
    }
  }

  lemma {:induction false} NotRead<R>(bs: seq<seq<R>>, size: nat, r: R)
    requires forall p :: 0 <= p < |bs| ==> r !in Page(bs[p], size, p + 1)
    ensures r !in ReadPages(bs, size)
  {
    if bs != [] {
      var rest := bs[..|bs| - 1];
      forall p | 0 <= p < |rest| ensures r !in Page(rest[p], size, p + 1) {
        assert rest[p] == bs[p];
      }
      NotRead(rest, size, r);
      assert r !in Page(bs[|bs| - 1], size, |bs| - 1 + 1);
    }
  }

  lemma OutsideWindow<R>(s: seq<R>, at: nat, size: nat, i: nat)
    requires Distinct(s) && i < |s| && (i < at || at + size <= i)
    ensures s[i] !in Window(s, at, size)
  {
    var w := Window(s, at, size);
    forall j | 0 <= j < |w| ensures w[j] != s[i] {
      assert w[j] == s[Min(at, |s|) + j];
    }
  }

  lemma Monotone(size: nat, p: nat, q: nat)
    requires p <= q
    ensures size * p <= size * q
  {}

  /** With the border of pages p and p + 1 straddled, a reader that meets one arrangement up to there and
      the other after it misses the row right behind the border. */
  lemma StraddledRowMissed<R>(a: seq<R>, b: seq<R>, size: nat, n: nat, p: nat, m: nat, q: nat)
    requires Distinct(a) && Distinct(b) && |a| == |b| && q < n && (n > 0 ==> size * (n - 1) < TWO32)
    requires 0 < m < |a| && m == size * p && b[m - 1] == a[m]
    ensures a[m] !in Page(if q < p then a else b, size, q + 1)
  {
    Monotone(size, q, n - 1);
    OneMore(size, q);
    var s := if q < p then a else b;
    PageAt(s, size, q + 1, size * q);
    if q < p {
      Monotone(size, q + 1, p);
      OutsideWindow(a, size * q, size, m);
    } else {
      Monotone(size, p, q);
      OutsideWindow(b, size * q, size, m - 1);
    }
  }

  /** Pages 1 to p from a, the rest up to page n from b. */
  function Mixed<R>(a: seq<R>, b: seq<R>, p: nat, n: nat): seq<seq<R>> {
    seq(n, (q: nat) => if q < p then a else b)
  }

  lemma MixedMisses<R>(a: seq<R>, b: seq<R>, size: nat, n: nat, p: nat, m: nat)
    requires Distinct(a) && Distinct(b) && |a| == |b| && (n > 0 ==> size * (n - 1) < TWO32)
    requires 0 < m < |a| && m == size * p && b[m - 1] == a[m]
    ensures a[m] !in ReadPages(Mixed(a, b, p, n), size)
  {
    var bs := Mixed(a, b, p, n);
    forall q | 0 <= q < |bs| ensures a[m] !in Page(bs[q], size, q + 1) {
      StraddledRowMissed(a, b, size, n, p, m, q);
    }
    NotRead(bs, size, a[m]);
  }

  /** Whatever arrangement each page comes from, the pages together show every matching row, and once. */
  ghost predicate EveryReadComplete<R(!new)>(all: set<R>, le: (R, R) -> bool, size: nat, n: nat) {
    forall bs :: |bs| == n && AllArrange(bs, all, le) ==> Complete(Reads(bs, size), all)
  }

  predicate Complete<R>(read: seq<R>, all: set<R>) {
    Contents(read) == all && |read| == |all|
  }

  lemma RepeatsCountLess<R>(s: seq<R>)
    requires !Distinct(s)
    ensures |Contents(s)| < |s|
  {
    var i, j :| 0 <= i < j < |s| && s[i] == s[j];
    var t := s[..j] + s[j + 1..];
    forall r | r in s ensures r in t {
      var k :| 0 <= k < |s| && s[k] == r;
      assert if k == j then t[i] == r else if k < j then t[k] == r else t[k - 1] == r;
    }
    assert Contents(s) == Contents(t);
    ContentsBound(t);
  }

  lemma StraddledIsIncomplete<R(!new)>(a: seq<R>, all: set<R>, le: (R, R) -> bool, size: nat, n: nat, p: nat, m: nat)
    requires Arranges(a, all, le) && n < TWO32 && (n > 0 ==> size * (n - 1) < TWO32)
    requires 0 < m < |a| && m == size * p && Tied(a[m - 1], a[m], le)
    ensures !EveryReadComplete(all, le, size, n)
  {
    var b := Swapped(a, m - 1);
    SwapArranges(a, all, le, m - 1);
    MixedMisses(a, b, size, n, p, m);
    MixedArranges(a, b, all, le, p, n);
    ReadsArePages(Mixed(a, b, p, n), size);
    assert a[m] in Contents(a);
  }

  lemma MixedArranges<R>(a: seq<R>, b: seq<R>, all: set<R>, le: (R, R) -> bool, p: nat, n: nat)
    requires Arranges(a, all, le) && Arranges(b, all, le)
    ensures AllArrange(Mixed(a, b, p, n), all, le) && |Mixed(a, b, p, n)| == n
  {}

  /** With a page that no request can ask for, even an unchanging list is not read completely. */
  lemma TooFarIsIncomplete<R(!new)>(a: seq<R>, all: set<R>, le: (R, R) -> bool, size: nat, n: nat)
    requires Arranges(a, all, le) && size > 0 && n > 0 && size * (n - 1) < |a| && TooFar(size, n)
    ensures !EveryReadComplete(all, le, size, n)
  {
    var bs := Mixed(a, a, 0, n);
    MixedArranges(a, a, all, le, 0, n);
    ReadsOfOne(bs, a, size);
    ReadingRepeats(a, size, n);
    RepeatsCountLess(Reading(a, size, n));
  }

  /** Exactly when a reader of all pages is sure to see the whole list, although the database may arrange
      tied rows anew for each page: no tie straddles a page border, and the number of the last page and its
      offset fit in 32 bits. */
  lemma ReadsCompleteIff<R(!new)>(a: seq<R>, all: set<R>, le: (R, R) -> bool, size: nat, n: nat)
    requires Preorder(le) && Arranges(a, all, le) && size > 0 && n == PageCount(|a|, size)
    ensures EveryReadComplete(all, le, size, n) <==> BordersClear(a, size, le) && (n > 0 ==> !TooFar(size, n))
  {
    if n > 0 {
      CountBounds(|a|, size);
    }
    if n > 0 && TooFar(size, n) {
      TooFarIsIncomplete(a, all, le, size, n);
    } else if BordersClear(a, size, le) {
      forall bs | |bs| == n && AllArrange(bs, all, le) ensures Complete(Reads(bs, size), all) {
        ReadsArePages(bs, size);
        ReadSoFar(a, bs, all, le, size);
        AllRead(a, size, n);
        CountRows(a);
      }
    } else {
      var p: nat :| 0 < Border(size, p) < |a| && Tied(a[Border(size, p) - 1], a[Border(size, p)], le);
      StraddledIsIncomplete(a, all, le, size, n, p, Border(size, p));
    }
  }

  lemma AllRead<R>(a: seq<R>, size: nat, n: nat)
    requires size > 0 && n == PageCount(|a|, size)
    ensures a[..Min(Border(size, n), |a|)] == a
  {
    if a != [] {
      CountBounds(|a|, size);
    }
  }
}
