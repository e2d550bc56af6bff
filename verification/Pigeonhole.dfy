/** Counting: a sequence without repetitions holds as many numbers as it is long. */
module Pigeonhole {

  predicate Distinct(p: seq<int>) { forall i, j :: 0 <= i < j < |p| ==> p[i] != p[j] }

  function UpTo(n: nat): (s: set<int>)
    ensures |s| == n
    ensures forall x :: x in s <==> 0 <= x < n
  {
    if n == 0 then {} else UpTo(n - 1) + {n - 1}
  }

  function Elements(p: seq<int>): (s: set<int>)
    ensures forall x :: x in s <==> x in p
  {
    set x | x in p
  }

  lemma {:induction false} DistinctSize(p: seq<int>)
    requires Distinct(p)
    ensures |Elements(p)| == |p|
  {
    if p != [] {
      var x := p[|p| - 1];
      assert p == p[..|p| - 1] + [x];
      DistinctSize(p[..|p| - 1]);
      assert Elements(p) == Elements(p[..|p| - 1]) + {x};
    }
  }

  lemma SmallerSubset(s: set<int>, t: set<int>)
    requires s <= t
    ensures |s| <= |t| && (|s| == |t| ==> s == t)
  {
    assert t * s == s;
    assert |t - s| == |t| - |t * s|;
    if |s| == |t| { assert t - s == {}; }
  }

  /** n different numbers below n are all of them. */
  lemma AllThere(p: seq<int>, n: nat)
    requires Distinct(p) && |p| >= n && forall x :: x in p ==> 0 <= x < n
    ensures |p| == n && forall x :: 0 <= x < n ==> x in p
  {
    DistinctSize(p);
    SmallerSubset(Elements(p), UpTo(n));
    forall x | 0 <= x < n ensures x in p {
      assert x in UpTo(n);
    }
  }

  lemma {:induction false} OnceOnly(p: seq<int>, x: int)
    requires Distinct(p)
    ensures multiset(p)[x] == if x in p then 1 else 0
  {
    if p != [] {
      var m, l := p[..|p| - 1], p[|p| - 1];
      assert p == m + [l];
      OnceOnly(m, x);
    }
  }
}
