/** Pages of a list, as `List` (internal/data/product.go) and `ListInstances` (internal/data/order.go)
    cut them: OFFSET and LIMIT, with the offset computed in 32 bits. */
module Paging {
  import opened Counting

  const TWO32 := 0x1_0000_0000

  type Uint32 = x: int | 0 <= x < TWO32 witness 0

  /** Page 0 and page size 0 stand for a default. */
  function OrElse(x: Uint32, default: Uint32): Uint32 {
    if x == 0 then default else x
  }

  /** The rows of `s` that OFFSET and LIMIT select. */
  function Window<T>(s: seq<T>, offset: nat, limit: nat): seq<T> {
    var lo := Min(offset, |s|);
    s[lo..Min(lo + limit, |s|)]
  }

  /** The offset the code asks for, a product of two uint32 values. */
  function Offset(size: nat, page: nat): nat
    requires page > 0
  {
    size * (page - 1) % TWO32
  }

  function Page<T>(ranked: seq<T>, size: nat, page: nat): seq<T>
    requires page > 0
  {
    Window(ranked, Offset(size, page), size)
  }

  /** Pages 1 to n, one after the other. */
  function Pages<T>(ranked: seq<T>, size: nat, n: nat): seq<T> {
    if n == 0 then [] else Pages(ranked, size, n - 1) + Page(ranked, size, n)
  }

  function PageCount(total: nat, size: nat): nat
    requires size > 0
  {
    if total == 0 then 0 else (total - 1) / size + 1
  }

  predicate Distinct<T(==)>(s: seq<T>) {
    forall i, j :: 0 <= i < j < |s| ==> s[i] != s[j]
  }

  /** One more page, at the offset `at` where the pages before it stopped. */
  lemma NextWindow<T>(s: seq<T>, at: nat, limit: nat)
    ensures s[..Min(at, |s|)] + Window(s, at, limit) == s[..Min(at + limit, |s|)]
  {}

  lemma OneMore(size: nat, n: nat)
    ensures size * (n + 1) == size * n + size
  {}

  /** The first pages are a prefix of the list, as long as no offset wraps. */
  lemma {:induction false} PagesPrefix<T>(ranked: seq<T>, size: nat, n: nat)
    requires n > 0 ==> size * (n - 1) < TWO32
    ensures Pages(ranked, size, n) == ranked[..Min(size * n, |ranked|)]
  {
    if n > 0 {
      EarlierFits(size, n);
      PagesPrefix(ranked, size, n - 1);
      NextPage(ranked, size, n);
    }
  }

  lemma EarlierFits(size: nat, n: nat)
    requires n > 0 && size * (n - 1) < TWO32
    ensures n > 1 ==> size * (n - 2) < TWO32
  {
    if n > 1 {
      OneMore(size, n - 2);
    }
  }

  lemma NextPage<T>(ranked: seq<T>, size: nat, n: nat)
    requires n > 0 && size * (n - 1) < TWO32
    ensures ranked[..Min(size * (n - 1), |ranked|)] + Page(ranked, size, n) == ranked[..Min(size * n, |ranked|)]
  {
    OneMore(size, n - 1);
    PageAt(ranked, size, n, size * (n - 1));
    NextWindow(ranked, size * (n - 1), size);
  }

  lemma PageAt<T>(ranked: seq<T>, size: nat, n: nat, at: nat)
    requires n > 0 && at == size * (n - 1) && at < TWO32
    ensures Page(ranked, size, n) == Window(ranked, at, size)
  {
    WrapsDown(at);
  }

  lemma CountBounds(total: nat, size: nat)
    requires size > 0 && total > 0
    ensures PageCount(total, size) > 0
    ensures size * (PageCount(total, size) - 1) < total <= size * PageCount(total, size)
  {
    var q := (total - 1) / size;
    assert total - 1 == size * q + (total - 1) % size;
    OneMore(size, q);
  }

  /** A page holds the rows it should exactly when its offset does not wrap, or wraps to one past the
      end as well. */
  lemma PageIsSliceIff<T>(ranked: seq<T>, size: nat, page: nat)
    requires size > 0 && page > 0 && Distinct(ranked)
    ensures Page(ranked, size, page) == Window(ranked, size * (page - 1), size)
      <==> size * (page - 1) < 0x1_0000_0000 || |ranked| <= size * (page - 1) % 0x1_0000_0000
  {
    var at := size * (page - 1);
    WrapsDown(at);
    if at >= TWO32 && at % TWO32 < |ranked| {
      WindowsDiffer(ranked, at % TWO32, at, size);
    }
  }

  lemma WrapsDown(at: nat)
    ensures at % TWO32 <= at && (at < TWO32 <==> at % TWO32 == at)
  {}

  lemma WindowsDiffer<T>(s: seq<T>, lo: nat, hi: nat, limit: nat)
    requires Distinct(s) && limit > 0 && lo < |s| && lo < hi
    ensures Window(s, lo, limit) != Window(s, hi, limit)
  {
    assert Window(s, lo, limit)[0] == s[lo];
    if hi < |s| {
      assert Window(s, hi, limit)[0] == s[hi];
    }
  }

  /** Which page a request for the n-th page is for: its number is a uint32, and 0 means 1. */
  function Asked(n: nat): nat {
    OrElse(n % TWO32, 1)
  }

  /** What requests for the first n pages return. */
  function Reading<T>(ranked: seq<T>, size: nat, n: nat): seq<T> {
    if n == 0 then [] else Reading(ranked, size, n - 1) + Page(ranked, size, Asked(n))
  }

  lemma AskedFits(n: nat)
    requires n < TWO32
    ensures n > 0 ==> Asked(n) == n
  {}

  lemma {:induction false} ReadingIsPages<T>(ranked: seq<T>, size: nat, n: nat)
    requires n < TWO32
    ensures Reading(ranked, size, n) == Pages(ranked, size, n)
  {
    if n > 0 {
      AskedFits(n);
      ReadingIsPages(ranked, size, n - 1);
    }
  }

  /** Reading every page gives back the whole list, in order, exactly when the number of the last page and
      its offset fit in 32 bits. */
  lemma PagesTileIff<T>(ranked: seq<T>, size: nat, n: nat)
    requires size > 0 && Distinct(ranked) && ranked != [] && n == PageCount(|ranked|, size)
    ensures Reading(ranked, size, n) == ranked <==> size * (n - 1) < 0x1_0000_0000 && n < 0x1_0000_0000
  {
    CountBounds(|ranked|, size);
    if size * (n - 1) < TWO32 && n < TWO32 {
      ReadingIsPages(ranked, size, n);
      PagesPrefix(ranked, size, n);
    } else {
      ReadingRepeats(ranked, size, n);
    }
  }

  /** Page 3 at 2^31 rows a page has the offset 0: a request for it lists the first page of any list,
      although the third is empty for all but the longest. */
  lemma ThirdPageStartsOver<T>(ranked: seq<T>)
    requires ranked != [] && |ranked| <= TWO32
    ensures Page(ranked, 0x8000_0000, 3) == Page(ranked, 0x8000_0000, 1) != Window(ranked, TWO32, 0x8000_0000) == []
  {}

  /** And 2^32 rows read one by one are not all read, for no request can name the last page. */
  lemma LastPageUnnamed<T>(ranked: seq<T>)
    requires Distinct(ranked) && |ranked| == TWO32
    ensures PageCount(|ranked|, 1) == TWO32 && Asked(TWO32) == 1 && Reading(ranked, 1, TWO32) != ranked
  {
    PagesTileIff(ranked, 1, TWO32);
  }

  /** The page's number or its offset does not fit in 32 bits. */
  predicate TooFar(size: nat, m: nat)
    requires m > 0
  {
    TWO32 <= size * (m - 1) || TWO32 <= m
  }

  lemma NextOffset(size: nat, m: nat)
    requires m > 1
    ensures size * (m - 2) <= size * (m - 1)
  {
    OneMore(size, m - 2);
  }

  /** From the first page on that cannot be asked for, some row has been read twice. */
  lemma {:induction false} ReadingRepeats<T>(ranked: seq<T>, size: nat, m: nat)
    requires size > 0 && Distinct(ranked) && m > 0 && size * (m - 1) < |ranked| && TooFar(size, m)
    ensures !Distinct(Reading(ranked, size, m))
  {
    var before := Reading(ranked, size, m - 1);
    if m > 1 && TooFar(size, m - 1) {
      NextOffset(size, m);
      ReadingRepeats(ranked, size, m - 1);
      StillRepeats(before, Page(ranked, size, Asked(m)));
    } else {
      ReadingUpTo(ranked, size, m);
      WrongPage(ranked, size * (m - 1), size, before, m);
    }
  }

  lemma ReadingUpTo<T>(ranked: seq<T>, size: nat, m: nat)
    requires m > 0 && size * (m - 1) < |ranked| && (m > 1 ==> !TooFar(size, m - 1))
    ensures Reading(ranked, size, m - 1) == ranked[..size * (m - 1)]
  {
    if m > 1 {
      ReadingIsPages(ranked, size, m - 1);
      PagesPrefix(ranked, size, m - 1);
    }
  }

  lemma WrongPage<T>(ranked: seq<T>, at: nat, size: nat, before: seq<T>, m: nat)
    requires size > 0 && Distinct(ranked) && 0 < m <= TWO32 && at == size * (m - 1) < |ranked|
    requires before == ranked[..at] && TooFar(size, m)
    ensures !Distinct(before + Page(ranked, size, Asked(m)))
  {
    AtLeast(size, m - 1);
    if m == TWO32 {
      WrongRow(ranked, at, 0, size, before);
    } else {
      AskedFits(m);
      WrapsDown(at);
      WrongRow(ranked, at, at % TWO32, size, before);
    }
  }

  lemma AtLeast(size: nat, k: nat)
    requires size > 0
    ensures size * k >= k
  {}

  lemma WrongRow<T>(ranked: seq<T>, at: nat, lo: nat, size: nat, before: seq<T>)
    requires size > 0 && lo < at < |ranked| && before == ranked[..at]
    ensures !Distinct(before + Window(ranked, lo, size))
  {
    var page := Window(ranked, lo, size);
    assert page[0] == ranked[lo];
    assert (before + page)[at] == page[0] && (before + page)[lo] == before[lo];
  }

  lemma StillRepeats<T>(a: seq<T>, b: seq<T>)
    requires !Distinct(a)
    ensures !Distinct(a + b)
  {
    var i, j :| 0 <= i < j < |a| && a[i] == a[j];
    assert (a + b)[i] == a[i] && (a + b)[j] == a[j];
  }
}
