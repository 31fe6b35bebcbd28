/** Counting the members of sequences and sets. */
module Counting {

  function Min(a: int, b: int): int {
    if a < b then a else b
  }

  predicate NoRepeats(xs: seq<int>) {
    forall i, j :: 0 <= i < j < |xs| ==> xs[i] != xs[j]
  }

  function Members(xs: seq<int>): set<int> {
    set x | x in xs
  }

  lemma {:induction false} CountMembers(xs: seq<int>)
    requires NoRepeats(xs)
    ensures |Members(xs)| == |xs|
  {
    if xs != [] {
      var ys, x := xs[..|xs| - 1], xs[|xs| - 1];
      CountMembers(ys);
      assert x !in ys;
      assert Members(xs) == Members(ys) + {x};
    }
  }

  lemma SplitCount(all: set<int>, a: set<int>, b: set<int>, d: set<int>)
    requires all == a + b + d && a !! b && a !! d && b !! d
    ensures |all| == |a| + |b| + |d|
  {
    assert |a + b| == |a| + |b|;
  }

  function Upto(n: nat): set<int> {
    if n == 0 then {} else Upto(n - 1) + {n}
  }

  lemma {:induction false} UptoCount(n: nat)
    ensures |Upto(n)| == n
    ensures forall x :: x in Upto(n) <==> 1 <= x <= n
  {
    if n != 0 {
      UptoCount(n - 1);
    }
  }

  lemma Member<T>(s: set<T>) returns (x: T)
    requires s != {}
    ensures x in s
  {
    x :| x in s;
  }

  lemma SubsetCount<T>(a: set<T>, b: set<T>)
    requires a <= b
    ensures |a| <= |b|
  {
    assert b == a + (b - a);
  }

  /** More than n numbers from 1 to n repeat. */
  lemma Pigeonhole(xs: seq<int>, n: nat) returns (i: nat, j: nat)
    requires |xs| > n && forall k :: 0 <= k < |xs| ==> 1 <= xs[k] <= n
    ensures i < j < |xs| && xs[i] == xs[j]
  {
    if NoRepeats(xs) {
      CountMembers(xs);
      UptoCount(n);
      SubsetCount(Members(xs), Upto(n));
    }
    i, j :| 0 <= i < j < |xs| && xs[i] == xs[j];
  }
}
