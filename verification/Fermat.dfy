/** Fermat's theorem: modulo a prime p, the (p-1)th power of everything but zero is 1. */
module Fermat {
  import opened Modular
  import opened Primality
  import opened Pigeonhole

  /** The product of the numbers of s below n. */
  function Product(s: set<int>, n: nat): int {
    if n == 0 then 1 else Product(s, n - 1) * if n - 1 in s then n - 1 else 1
  }

  lemma {:induction false} ProductWith(s: set<int>, y: nat, n: nat)
    requires y !in s
    ensures Product(s + {y}, n) == if y < n then y * Product(s, n) else Product(s, n)
    decreases n
  {
    if n > 0 {
      ProductWith(s, y, n - 1);
      var f := if n - 1 in s then n - 1 else 1;
      NextFactor(s, n);
      NextFactor(s + {y}, n);
      hide Product;
      Regroup(y, Product(s, n - 1), f);
    }
  }

  lemma NextFactor(s: set<int>, n: nat)
    requires n > 0
    ensures Product(s, n) == Product(s, n - 1) * if n - 1 in s then n - 1 else 1
  {
  }

  lemma Regroup(y: int, q: int, f: int)
    ensures (y * q) * f == y * (q * f) && q * y == y * (q * 1)
  {
  }

  /** The product of the residues below i, zero left out. */
  function Factorial(i: nat): int { if i <= 1 then 1 else (i - 1) * Factorial(i - 1) }

  /** The residues modulo p other than zero. */
  function Residues(p: nat): (s: set<int>)
    requires p > 0
    ensures |s| == p - 1 && forall x :: x in s <==> 0 < x < p
  {
    UpTo(p) - {0}
  }

  lemma {:induction false} ProductOfAll(p: nat, n: nat)
    requires 0 < p && n <= p
    ensures Product(Residues(p), n) == Factorial(n)
    decreases n
  {
    hide Residues;
    if n > 0 { ProductOfAll(p, n - 1); }
  }

  /** Multiplying by what is not zero modulo a prime, two residues stay different. */
  lemma Differ(a: int, x: int, y: int, p: int)
    requires Prime(p) && a % p != 0 && 0 <= x < p && 0 <= y < p && (a * x) % p == (a * y) % p
    ensures x == y
  {
    EqualRests(a, x, y, p);
    hide Prime;
    Unique(x, p, 0, x);
    Unique(y, p, 0, y);
  }

  lemma EqualRests(a: int, x: int, y: int, p: int)
    requires Prime(p) && a % p != 0 && (a * x) % p == (a * y) % p
    ensures x % p == y % p
  {
    PrimeUnit(a % p, p);
    hide Prime, Unit;
    TimesDifference(a, x, y, p);
    UnitCancels(a % p, x - y, p);
    SameRest(x, y, p);
  }

  lemma TimesDifference(a: int, x: int, y: int, p: int)
    requires p > 0 && (a * x) % p == (a * y) % p
    ensures (a % p * (x - y)) % p == 0
  {
    SameRest(a * x, a * y, p);
    MulRest(a, x - y, p);
    assert a * (x - y) == a * x - a * y;
  }

  /** y is one of the residues below i, multiplied by a. */
  predicate Reached(a: int, i: nat, p: nat, y: int)
    requires p > 0
  {
    exists x :: 0 < x < i && (a * x) % p == y
  }

  /** The residues below i, each multiplied by a: as many, and their product has i - 1 factors a more. */
  lemma {:induction false} Image(a: int, i: nat, p: nat) returns (t: set<int>)
    requires Prime(p) && a % p != 0 && 1 <= i <= p
    ensures t <= Residues(p) && |t| == i - 1 && forall y :: y in t ==> Reached(a, i, p, y)
    ensures Product(t, p) % p == (Power(a, i - 1) * Factorial(i)) % p
    decreases i
  {
    hide Prime, Product, Power, Residues;
    if i == 1 {
      t := {};
      EmptyProduct(a, p, p);
    } else {
      var rest := Image(a, i - 1, p);
      var y := (a * (i - 1)) % p;
      NotYet(a, i - 1, rest, p);
      t := rest + {y};
      assert Reached(a, i, p, y);
      ProductWith(rest, y, p);
      OneMore(a, i - 1, i - 2, Factorial(i - 1), Product(rest, p), p);
    }
  }

  lemma {:induction false} EmptyProduct(a: int, p: int, n: nat)
    requires p > 0
    ensures Product({}, n) == 1 && Power(a, 0) == Factorial(1) == 1
    decreases n
  {
    if n > 0 { EmptyProduct(a, p, n - 1); }
  }

  lemma NotYet(a: int, i: nat, t: set<int>, p: nat)
    requires Prime(p) && a % p != 0 && 0 < i < p && forall y :: y in t ==> Reached(a, i, p, y)
    ensures (a * i) % p !in t && 0 < (a * i) % p < p
  {
    var y := (a * i) % p;
    if y in t {
      var x :| 0 < x < i && (a * x) % p == y;
      Differ(a, i, x, p);
    }
    if y == 0 {
      assert a * 0 == 0;
      Unique(0, p, 0, 0);
      Differ(a, i, 0, p);
    }
  }

  lemma OneMore(a: int, x: int, n: nat, q: int, r: int, p: int)
    requires p > 0 && r % p == (Power(a, n) * q) % p
    ensures ((a * x) % p * r) % p == (Power(a, n + 1) * (x * q)) % p
  {
    RestOfRest(a * x, p);
    MulBoth((a * x) % p, a * x, r, Power(a, n) * q, p);
    var b := Power(a, n);
    assert Power(a, n + 1) == a * b;
    hide Power;
    assert (a * x) * (b * q) == (a * b) * (x * q);
  }

  lemma {:induction false} FactorialNotZero(i: nat, p: nat)
    requires Prime(p) && i <= p
    ensures Factorial(i) % p != 0
    decreases i
  {
    if i <= 1 {
      Unique(1, p, 0, 1);
    } else {
      FactorialNotZero(i - 1, p);
      PrimeUnit(i - 1, p);
      hide Prime;
      if Factorial(i) % p == 0 { UnitCancels(i - 1, Factorial(i - 1), p); }
    }
  }

  /** Fermat's little theorem. */
  lemma LittleTheorem(a: int, p: nat)
    requires Prime(p) && a % p != 0
    ensures Power(a, p - 1) % p == 1
  {
    hide Product, Power, Divides, Factorial, Residues;
    var t := Image(a, p, p);
    SmallerSubset(t, Residues(p));
    ProductOfAll(p, p);
    FactorialNotZero(p, p);
    Cancelled(Factorial(p), Power(a, p - 1), p);
  }

  /** A factor that changes nothing is 1. */
  lemma Cancelled(q: int, b: int, p: int)
    requires Prime(p) && q % p != 0 && q % p == (b * q) % p
    ensures b % p == 1
  {
    assert b * q == q * b && q * 1 == q;
    EqualRests(q, b, 1, p);
    hide Prime;
    Unique(1, p, 0, 1);
  }
}
