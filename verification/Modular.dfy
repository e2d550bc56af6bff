/** Arithmetic modulo a fixed number, and the extended Euclidean algorithm the card table inverts its keys with. */
module Modular {

  predicate Divides(d: int, n: int)
    requires d > 0
  {
    n % d == 0
  }

  ghost predicate Prime(p: int) {
    p > 1 && forall d :: 1 < d < p ==> !Divides(d, p)
  }

  // ---------- remainders ----------

  lemma Unique(a: int, m: int, q: int, r: int)
    requires m > 0 && a == m * q + r && 0 <= r < m
    ensures a / m == q && a % m == r
  {
    var d := a / m - q;
    assert m * d == r - a % m;
    Outside(m, d);
  }

  lemma Outside(m: int, d: int)
    requires m > 0
    ensures d >= 1 ==> m * d >= m
    ensures d <= -1 ==> m * d <= -m
  {
  }

  lemma AddMultiple(x: int, m: int, k: int)
    requires m > 0
    ensures (x + m * k) % m == x % m
  {
    assert x + m * k == m * (x / m + k) + x % m;
    Unique(x + m * k, m, x / m + k, x % m);
  }

  lemma SameRest(x: int, y: int, m: int)
    requires m > 0
    ensures x % m == y % m <==> (x - y) % m == 0
  {
    assert x == m * (x / m) + x % m && y == m * (y / m) + y % m;
    if x % m == y % m {
      assert x - y == m * (x / m - y / m) + 0;
      Unique(x - y, m, x / m - y / m, 0);
    }
    if (x - y) % m == 0 {
      assert x == y + m * ((x - y) / m);
      AddMultiple(y, m, (x - y) / m);
    }
  }

  lemma MulRest(x: int, y: int, m: int)
    requires m > 0
    ensures (x % m * y) % m == (x * y) % m
  {
    assert x == m * (x / m) + x % m;
    assert x * y == x % m * y + m * (x / m * y) by {
      assert (m * (x / m) + x % m) * y == m * (x / m) * y + x % m * y;
      assert m * (x / m) * y == m * (x / m * y);
    }
    AddMultiple(x % m * y, m, x / m * y);
  }

  lemma MulSame(x: int, x': int, y: int, m: int)
    requires m > 0 && x % m == x' % m
    ensures (x * y) % m == (x' * y) % m
  {
    MulRest(x, y, m);
    MulRest(x', y, m);
  }

  lemma NegRest(x: int, m: int)
    requires m > 0
    ensures (-x) % m == if x % m == 0 then 0 else m - x % m
  {
    assert x == m * (x / m) + x % m;
    if x % m == 0 {
      assert -x == m * (-(x / m)) + 0;
      Unique(-x, m, -(x / m), 0);
    } else {
      assert -x == m * (-(x / m) - 1) + (m - x % m);
      Unique(-x, m, -(x / m) - 1, m - x % m);
    }
  }

  // ---------- divisors ----------

  lemma DividesDiff(d: int, a: int, b: int, q: int)
    requires d > 0 && Divides(d, a) && Divides(d, b)
    ensures Divides(d, a - q * b)
  {
    assert a == d * (a / d) && b == d * (b / d);
    assert a - q * b == d * (a / d - q * (b / d)) + 0 by {
      assert q * (d * (b / d)) == d * (q * (b / d));
    }
    Unique(a - q * b, d, a / d - q * (b / d), 0);
  }

  /** The loop of the inversion, as a function: r0 and r1 the remainders, s0 and s1 the factors of the first number. */
  function Euclid(r0: nat, r1: nat, s0: int, s1: int): (r: (nat, int))
    decreases r1
  {
    if r1 == 0 then (r0, s0)
    else Euclid(r1, r0 % r1, s1, s0 - r0 / r1 * s1)
  }

  /** It ends with a common divisor, written as a multiple of the first number modulo m. */
  lemma {:induction false} EuclidMeans(r0: nat, r1: nat, s0: int, s1: int, a: int, m: int)
    requires m > 0 && (r0 > 0 || r1 > 0)
    requires (s0 * a) % m == r0 % m && (s1 * a) % m == r1 % m
    ensures var (g, s) := Euclid(r0, r1, s0, s1); g > 0 && Divides(g, r0) && Divides(g, r1) && (s * a) % m == g % m
    decreases r1
  {
    if r1 > 0 {
      var q := r0 / r1;
      assert r0 == r1 * q + r0 % r1;
      CombineRests(s0, s1, q, a, r0, r1, m);
      EuclidMeans(r1, r0 % r1, s1, s0 - q * s1, a, m);
      var (g, s) := Euclid(r0, r1, s0, s1);
      DividesSum(g, r0 % r1, r1, q, r0);
    } else {
      assert r0 == r0 * 1 + 0;
      Unique(r0, r0, 1, 0);
    }
  }

  lemma DividesSum(g: int, a: int, b: int, q: int, c: int)
    requires g > 0 && Divides(g, a) && Divides(g, b) && c == b * q + a
    ensures Divides(g, c)
  {
    DividesDiff(g, a, b, -q);
    assert a - -q * b == c;
  }

  lemma CombineRests(s0: int, s1: int, q: int, a: int, r0: int, r1: int, m: int)
    requires m > 0 && r1 > 0 && q == r0 / r1
    requires (s0 * a) % m == r0 % m && (s1 * a) % m == r1 % m
    ensures ((s0 - q * s1) * a) % m == (r0 % r1) % m
  {
    var x, y := s0 * a - r0, s1 * a - r1;
    SameRest(s0 * a, r0, m);
    SameRest(s1 * a, r1, m);
    DividesDiff(m, x, y, q);
    assert r0 - q * r1 == r0 % r1;
    CombineAlgebra(s0, s1, q, a, r0, r1);
    SameRest((s0 - q * s1) * a, r0 % r1, m);
  }

  lemma CombineAlgebra(s0: int, s1: int, q: int, a: int, r0: int, r1: int)
    ensures s0 * a - r0 - q * (s1 * a - r1) == (s0 - q * s1) * a - (r0 - q * r1)
  {
    assert q * (s1 * a - r1) == q * (s1 * a) - q * r1;
    assert (s0 - q * s1) * a == s0 * a - q * s1 * a;
  }

  /** JavaScript's remainder of BigInts: towards zero. */
  function JsRem(a: int, m: int): int
    requires m > 0
  {
    if a >= 0 then a % m else -((-a) % m)
  }

  function InvOf(a: nat, m: int): (r: nat)
    requires m > 0
    ensures r < m
  {
    Euclid(a % m, m, 1, 0).1 % m
  }

  method InvL(a: nat, m: int) returns (r: nat)
    requires m > 0
    ensures r == InvOf(a, m)
  {
    var r0: nat, r1: nat, s0, s1 := a % m, m, 1, 0;
    while r1 != 0
      invariant Euclid(r0, r1, s0, s1) == Euclid(a % m, m, 1, 0)
      decreases r1
    {
      var q := r0 / r1;
      assert q * r1 + r0 % r1 == r0;
      var t := r0 - q * r1;
      r0, r1 := r1, t;
      s0, s1 := s1, s0 - q * s1;
    }
    r := JsRem(JsRem(s0, m) + m, m);
    JsRemTwice(s0, m);
  }

  lemma JsRemTwice(s: int, m: int)
    requires m > 0
    ensures JsRem(JsRem(s, m) + m, m) == s % m
  {
    if s >= 0 {
      assert s % m + m == m * 1 + s % m;
      Unique(s % m + m, m, 1, s % m);
    } else {
      var x := (-s) % m;
      NegRest(-s, m);
      if x == 0 {
        assert m == m * 1 + 0;
        Unique(m, m, 1, 0);
      } else {
        assert m - x == m * 0 + (m - x);
        Unique(m - x, m, 0, m - x);
      }
    }
  }

  /** Numbers that can be divided by, modulo m. */
  ghost predicate Unit(a: int, m: int)
    requires m > 0
  {
    exists u :: (a * u) % m == 1
  }

  /** A divisor of m and of a unit is 1. */
  lemma UnitDivisor(a: int, m: int, g: int)
    requires m > 1 && Unit(a, m) && g > 0 && Divides(g, a % m) && Divides(g, m)
    ensures g == 1
  {
    var u :| (a * u) % m == 1;
    MulRest(a, u, m);
    var x := a % m * u;
    assert a % m == g * (a % m / g);
    assert x == g * (a % m / g * u) + 0;
    Unique(x, g, a % m / g * u, 0);
    DividesDiff(g, x, m, x / m);
    assert x - x / m * m == 1;
    if g > 1 { Unique(1, g, 0, 1); }
  }

  /** The inversion inverts exactly the units. */
  lemma InvIsInverse(a: nat, m: int)
    requires m > 1
    ensures (InvOf(a, m) * a) % m == 1 <==> Unit(a, m)
  {
    hide InvOf;
    var i := InvOf(a, m);
    assert i * a == a * i;
    if Unit(a, m) { UnitInverse(a, m); }
  }

  lemma UnitInverse(a: nat, m: int)
    requires m > 1 && Unit(a, m)
    ensures (InvOf(a, m) * a) % m == 1
  {
    hide Euclid;
    EuclidStarts(a, m);
    var (g, s) := Euclid(a % m, m, 1, 0);
    UnitDivisor(a, m, g);
    hide Unit;
    MulRest(s, a, m);
    Unique(1, m, 0, 1);
  }

  /** Modulo a prime everything but zero can be divided by. */
  lemma PrimeUnit(a: nat, p: int)
    requires Prime(p) && 0 < a < p
    ensures Unit(a, p)
  {
    hide Euclid, Prime;
    EuclidStarts(a, p);
    var (g, s) := Euclid(a % p, p, 1, 0);
    Unique(a, p, 0, a);
    SmallDivisor(g, a);
    SoleDivisor(g, p);
    Unique(1, p, 0, 1);
    assert s * a == a * s;
  }

  lemma SoleDivisor(g: int, p: int)
    requires Prime(p) && 0 < g < p && Divides(g, p)
    ensures g == 1
  {
  }

  lemma EuclidStarts(a: nat, m: int)
    requires m > 1
    ensures var (g, s) := Euclid(a % m, m, 1, 0); g > 0 && Divides(g, a % m) && Divides(g, m) && (s * a) % m == g % m
  {
    MulRest(a, 1, m);
    assert (1 * a) % m == (a % m) % m;
    assert (0 * a) % m == m % m by { Unique(0, m, 0, 0); Unique(m, m, 1, 0); }
    EuclidMeans(a % m, m, 1, 0, a, m);
  }

  lemma SmallDivisor(g: int, a: int)
    requires g > 0 && a > 0 && Divides(g, a)
    ensures g <= a
  {
    if g > a { Unique(a, g, 0, a); }
  }

  lemma UnitProduct(a: int, b: int, m: int)
    requires m > 1 && Unit(a, m) && Unit(b, m)
    ensures Unit(a * b, m) && Unit(a * b % m, m)
  {
    var u, v :| (a * u) % m == 1 && (b * v) % m == 1;
    assert (a * b) * (u * v) == (a * u) * (b * v);
    MulRest(a * u, b * v, m);
    assert (a * b * (u * v)) % m == 1;
    MulRest(a * b, u * v, m);
    assert (a * b % m * (u * v)) % m == 1;
  }
}
