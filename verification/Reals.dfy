/** Arithmetic of exact reals that the physics and the drawings share; the square root is a parameter. */
module Reals {
  /** The square root, exact. */
  ghost predicate IsRoot(root: real -> real) { forall q :: q >= 0.0 ==> root(q) >= 0.0 && Sq(root(q)) == q }

  function Sq(x: real): real { x * x }

  /** A component of a velocity of length v, shortened to length n. */
  function Shrunk(c: real, n: real, v: real): real
    requires v > 0.0
  {
    c * n / v
  }

  /** How much of a velocity goes along a direction. */
  function Along(x: real, y: real, nx: real, ny: real): real { x * nx + y * ny }

  function Part(j: real, n: real): real { j * n }

  lemma Positive(x: real)
    ensures Sq(x) >= 0.0 && (x != 0.0 ==> Sq(x) > 0.0) && (x == 0.0 ==> Sq(x) == 0.0)
  {
    Signs(x, x, Sq(x));
  }

  lemma Signs(a: real, b: real, y: real)
    requires y == a * b
    ensures a > 0.0 && b > 0.0 ==> y > 0.0
    ensures a < 0.0 && b < 0.0 ==> y > 0.0
    ensures a == 0.0 ==> y == 0.0
  {
  }

  lemma Product(a: real, b: real)
    ensures Sq(a * b) == Sq(a) * Sq(b)
  {
    assert (a * b) * (a * b) == (a * a) * (b * b);
  }

  lemma Distributes(p: real, q: real, r: real)
    ensures (p + q) * r == p * r + q * r
  {
  }

  lemma Ratio(x: real, n: real, v: real)
    requires v > 0.0
    ensures Sq(Shrunk(x, n, v)) * Sq(v) == Sq(x) * Sq(n)
  {
    var q := Shrunk(x, n, v);
    assert q * v == x * n;
    Product(q, v);
    Product(x, n);
  }

  lemma Cancel(a: real, b: real, c: real)
    requires c != 0.0 && a * c == b * c
    ensures a == b
  {
    assert (a - b) * c == 0.0;
  }

  lemma Scaled(x: real, y: real, v: real, n: real)
    requires v > 0.0 && Sq(v) == Sq(x) + Sq(y)
    ensures Sq(Shrunk(x, n, v)) + Sq(Shrunk(y, n, v)) == Sq(n)
  {
    Ratio(x, n, v);
    Ratio(y, n, v);
    Positive(v);
    var p, q := Sq(Shrunk(x, n, v)), Sq(Shrunk(y, n, v));
    Distributes(p, q, Sq(v));
    Distributes(Sq(x), Sq(y), Sq(n));
    hide Sq, Shrunk;
    assert Sq(v) * Sq(n) == Sq(n) * Sq(v);
    Cancel(p + q, Sq(n), Sq(v));
  }

  lemma Multiplied(a: real, b: real)
    requires a > 0.0 && b > 0.0
    ensures a * b > 0.0
  {
  }

  lemma NotPositive(a: real, b: real)
    requires a >= 0.0 && b <= 0.0
    ensures a * b <= 0.0
  {
  }

  lemma NegSquare(v: real)
    ensures Sq(-v) == Sq(v)
  {
    assert (-v) * (-v) == v * v;
  }

  lemma Bigger(a: real, b: real)
    requires 0.0 <= a < b
    ensures Sq(a) < Sq(b)
  {
    LessProduct(a, b, a * a, a * b, b * b);
  }

  lemma LessProduct(a: real, b: real, aa: real, ab: real, bb: real)
    requires 0.0 <= a < b && aa == a * a && ab == a * b && bb == b * b
    ensures aa < bb
  {
    assert (b - a) * b > 0.0;
    assert ab == a * b && (b - a) * b == bb - ab;
    assert a * (b - a) >= 0.0;
    assert a * (b - a) == ab - aa;
  }

  lemma NotNegative(a: real, b: real, y: real)
    requires a >= 0.0 && b >= 0.0 && y == a * b
    ensures y >= 0.0
  {
  }

  lemma SmallFactor(a: real, b: real)
    requires a >= 0.0 && b <= 1.0
    ensures a * b <= a
  {
    NotNegative(a, 1.0 - b, a - a * b);
  }

  lemma UnitSquare(f: real)
    requires 0.0 <= f <= 1.0
    ensures Sq(f) <= 1.0
  {
    NotNegative(f, 1.0 - f, f - Sq(f));
  }
}
