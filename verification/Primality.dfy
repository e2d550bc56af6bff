/** A proof of primality from an element of large prime order: its powers are too many for a smaller modulus. */
module Primality {
  import opened Modular
  import opened Pigeonhole

  function Power(b: int, n: nat): int { if n == 0 then 1 else b * Power(b, n - 1) }

  ghost predicate IsPower(b: int, n: nat, m: int, r: int)
    requires m > 0
  {
    Power(b, n) % m == r % m
  }

  lemma {:induction false} PowerSum(b: int, i: nat, j: nat)
    ensures Power(b, i + j) == Power(b, i) * Power(b, j)
    decreases i
  {
    if i > 0 {
      PowerSum(b, i - 1, j);
      Assoc(b, Power(b, i - 1), Power(b, j));
    }
  }

  lemma Assoc(a: int, b: int, c: int)
    ensures a * (b * c) == (a * b) * c
  {
  }

  // ---------- square and multiply ----------

  lemma MulBoth(x: int, x': int, y: int, y': int, m: int)
    requires m > 0 && x % m == x' % m && y % m == y' % m
    ensures (x * y) % m == (x' * y') % m
  {
    MulSame(x, x', y, m);
    MulSame(y, y', x', m);
    assert y * x' == x' * y && y' * x' == x' * y';
  }

  lemma RestOfRest(x: int, m: int)
    requires m > 0
    ensures (x % m) % m == x % m
  {
    Unique(x % m, m, 0, x % m);
  }

  lemma BitStep(b: int, n: nat, m: int, r: int, x: bool, n': nat, r': int)
    requires m > 0 && IsPower(b, n, m, r) && n' == 2 * n + (if x then 1 else 0) && r' == r * r * (if x then b else 1)
    ensures IsPower(b, n', m, r')
  {
    var p := Power(b, n);
    PowerSum(b, n, n);
    MulBoth(p, r, p, r, m);
    if x {
      PowerSum(b, 2 * n, 1);
      assert Power(b, 1) == b by { assert Power(b, 0) == 1; }
      MulSame(p * p, r * r, b, m);
    }
    assert 2 * n == n + n;
  }

  /** One more bit of the exponent: squared, and multiplied when the bit is set. */
  lemma Square(b: int, n: int, m: int, r: int, r': int)
    requires m > 0 && n >= 0 && IsPower(b, n, m, r) && r * r % m == r'
    ensures IsPower(b, 2 * n, m, r')
  {
    hide IsPower;
    BitStep(b, n, m, r, false, 2 * n, r * r);
    SameRemainder(b, 2 * n, m, r * r, r');
  }

  lemma SquareTimes(b: int, n: int, m: int, r: int, r': int)
    requires m > 0 && n >= 0 && IsPower(b, n, m, r) && r * r * b % m == r'
    ensures IsPower(b, 2 * n + 1, m, r')
  {
    hide IsPower;
    BitStep(b, n, m, r, true, 2 * n + 1, r * r * b);
    SameRemainder(b, 2 * n + 1, m, r * r * b, r');
  }

  lemma SameRemainder(b: int, n: nat, m: int, r: int, r': int)
    requires m > 0 && IsPower(b, n, m, r) && r' == r % m
    ensures IsPower(b, n, m, r')
  {
    RestOfRest(r, m);
  }

  lemma ZeroPower(b: int, m: int)
    requires m > 0
    ensures IsPower(b, 0, m, 1)
  {
  }

  // ---------- powers that are 1 ----------

  lemma {:induction false} PowerOfOne(g: int, k: nat, t: nat, p: int)
    requires p > 1 && Power(g, k) % p == 1
    ensures Power(g, k * t) % p == 1
    decreases t
  {
    if t == 0 {
      assert k * t == 0;
      Unique(1, p, 0, 1);
    } else {
      PowerOfOne(g, k, t - 1, p);
      assert k * t == k + k * (t - 1);
      PowerSum(g, k, k * (t - 1));
      MulRest(Power(g, k), Power(g, k * (t - 1)), p);
    }
  }

  lemma {:induction false} PowerOfPower(g: int, i: nat, j: nat)
    ensures Power(Power(g, i), j) == Power(g, i * j)
    decreases j
  {
    if j == 0 {
      assert i * j == 0;
    } else {
      PowerOfPower(g, i, j - 1);
      assert i * j == i + i * (j - 1);
      PowerSum(g, i, i * (j - 1));
    }
  }

  /** Both the q-th and the k-th power are 1, q prime and no divisor of k: then it is 1 itself. */
  lemma OnlyOne(g: int, q: int, k: nat, p: int)
    requires p > 1 && Prime(q) && k % q != 0 && Power(g, q) % p == 1 && Power(g, k) % p == 1
    ensures g % p == 1
  {
    hide Power, Prime;
    var w, t := UnitMultiple(q, k);
    PowerOfOne(g, k, w, p);
    PowerOfOne(g, q, t, p);
    PowerSum(g, 1, q * t);
    PowerOne(g);
    OneFactor(g, Power(g, q * t), p);
  }

  /** Some multiple of k is one more than a multiple of q. */
  lemma UnitMultiple(q: int, k: nat) returns (w: nat, t: nat)
    requires Prime(q) && k % q != 0
    ensures q > 1 && k * w == 1 + q * t
  {
    PrimeUnit(k % q, q);
    var u :| ((k % q) * u) % q == 1;
    hide Prime, Unit;
    w := u % q;
    UnitFactor(k, u, q);
    RestOne(k * w, q);
    SignOf(q, k * w / q, k * w);
    t := k * w / q;
  }

  lemma RestOne(x: int, q: int)
    requires q > 1 && x % q == 1
    ensures x == 1 + q * (x / q)
  {
  }

  lemma PowerOne(g: int)
    ensures Power(g, 1) == g
  {
    assert Power(g, 0) == 1;
  }

  lemma SignOf(q: int, t: int, n: int)
    requires q > 1 && n == 1 + q * t && n >= 0
    ensures t >= 0
  {
    Outside(q, t);
  }

  lemma UnitFactor(k: nat, u: int, q: int)
    requires q > 1 && ((k % q) * u) % q == 1
    ensures (k * (u % q)) % q == 1
  {
    MulRest(k, u, q);
    MulRest(u, k, q);
    assert k * u == u * k && u % q * k == k * (u % q);
  }

  // ---------- too many powers ----------

  function Residues(g: int, m: nat, p: int): (s: seq<int>)
    requires p > 0
    ensures |s| == m && forall i :: 0 <= i < m ==> s[i] == Power(g, i) % p
  {
    seq(m, i requires 0 <= i < m => Power(g, i) % p)
  }

  /** No power before the m-th is 1: the first m powers are all different. */
  lemma PowersDiffer(g: int, m: nat, p: int, i: nat, j: nat)
    requires p > 1 && Power(g, m) % p == 1 && i < j < m && Power(g, i) % p == Power(g, j) % p
    ensures Power(g, j - i) % p == 1
  {
    hide Power;
    PowerSum(g, i, m - i);
    PowerSum(g, j, m - i);
    PowerSum(g, j - i, m);
    MulSame(Power(g, i), Power(g, j), Power(g, m - i), p);
    OneFactor(Power(g, j - i), Power(g, m), p);
  }

  /** A factor that is 1 can be left out. */
  lemma OneFactor(k: int, n: int, p: int)
    requires p > 1 && n % p == 1
    ensures (k * n) % p == k % p
  {
    Unique(1, p, 0, 1);
    MulSame(n, 1, k, p);
    assert n * k == k * n;
  }

  ghost predicate FirstAt(g: int, m: nat, p: int)
    requires p > 1
  {
    Power(g, m) % p == 1 && forall k :: 0 < k < m ==> Power(g, k) % p != 1
  }

  lemma TooMany(g: int, m: nat, p: int)
    requires p > 1 && FirstAt(g, m, p)
    ensures m <= p
  {
    var s := Residues(g, m, p);
    forall i, j | 0 <= i < j < m ensures s[i] != s[j] {
      if s[i] == s[j] { PowersDiffer(g, m, p, i, j); }
    }
    if m > p { AllThere(s, p); }
  }

  // ---------- from a modulus to its divisors ----------

  lemma SmallerDivisor(n: int, d: int) returns (p: int)
    requires 1 < d < n && Divides(d, n)
    ensures 1 < p && p * p <= n && Divides(p, n)
  {
    var e := n / d;
    assert n == d * e;
    hide Divides;
    Factor(d, e, n);
    if d <= e {
      p := d;
      Ordered(d, d, e);
    } else {
      p := e;
      assert d * e == e * d;
      Ordered(e, e, d);
      TimesDivides(e, d, n);
    }
  }

  lemma TimesDivides(e: int, d: int, n: int)
    requires e > 0 && n == e * d
    ensures Divides(e, n)
  {
    Unique(n, e, d, 0);
  }

  lemma TimesOne(d: int, e: int)
    ensures e == 1 ==> d * e == d
  {
  }

  lemma Squares(p: int, q: int)
    ensures p >= q > 0 ==> p * p >= q * q
  {
  }

  lemma Ordered(a: int, x: int, y: int)
    requires a > 0
    ensures x <= y ==> a * x <= a * y
  {
  }

  lemma Factor(d: int, e: int, n: int)
    requires 1 < d < n && n == d * e
    ensures e > 1
  {
    Outside(d, e);
    TimesOne(d, e);
  }

  /** A remainder modulo n is one modulo every divisor of n. */
  lemma Downwards(x: int, y: int, n: int, p: int)
    requires n > 0 && p > 0 && Divides(p, n) && x % n == y % n
    ensures x % p == y % p
  {
    SameRest(x, y, n);
    var k, c := (x - y) / n, n / p;
    assert x - y == n * k && n == p * c;
    assert n * k == p * (c * k);
    Unique(x - y, p, c * k, 0);
    SameRest(x, y, p);
  }

  /** h - 1 has an inverse modulo n, so h is 1 modulo no divisor of n. */
  lemma NotOne(h: int, u: int, v: int, n: int, p: int)
    requires n > 0 && p > 1 && Divides(p, n) && (h - 1) * u == 1 + v * n
    ensures h % p != 1
  {
    if h % p == 1 {
      Unique(1, p, 0, 1);
      SameRest(h, 1, p);
      var k, c := (h - 1) / p, n / p;
      assert h - 1 == p * k && n == p * c;
      assert (h - 1) * u == p * (k * u) && v * n == p * (v * c);
      assert 1 == p * (k * u - v * c);
      Outside(p, k * u - v * c);
    }
  }

  /** A number with an element of large prime order is prime. */
  lemma PrimeByOrder(n: int, q: int, g: int, u: int, v: int)
    requires n > 1 && Prime(q) && q * q > n && IsPower(g, q, n, 1) && (g - 1) * u == 1 + v * n
    ensures Prime(n)
  {
    forall d | 1 < d < n ensures !Divides(d, n) {
      if Divides(d, n) {
        var p := SmallerDivisor(n, d);
        OrderHere(n, q, g, u, v, p);
        TooMany(g, q, p);
        LargeSquare(p, q, n);
      }
    }
  }

  lemma LargeSquare(p: int, q: int, n: int)
    requires 1 < p && p * p <= n && q * q > n && q > 0
    ensures p < q
  {
    Squares(p, q);
  }

  lemma OrderHere(n: int, q: int, g: int, u: int, v: int, p: int)
    requires n > 1 && Prime(q) && IsPower(g, q, n, 1) && (g - 1) * u == 1 + v * n && p > 1 && Divides(p, n)
    ensures FirstAt(g, q, p)
  {
    Downwards(Power(g, q), 1, n, p);
    Unique(1, p, 0, 1);
    NotOne(g, u, v, n, p);
    forall k | 0 < k < q ensures Power(g, k) % p != 1 {
      if Power(g, k) % p == 1 {
        Unique(k, q, 0, k);
        OnlyOne(g, q, k, p);
      }
    }
  }

  /** The same with an order that is the product of two primes. */
  lemma PrimeByTwo(n: int, q1: int, q2: int, g: int, h1: int, u1: int, v1: int, h2: int, u2: int, v2: int)
    requires n > 1 && Prime(q1) && Prime(q2) && q1 < q2 && (q1 * q2) * (q1 * q2) > n
    requires IsPower(g, q1, n, h1) && IsPower(g, q2, n, h2) && IsPower(h2, q1, n, 1)
    requires (h1 - 1) * u1 == 1 + v1 * n && (h2 - 1) * u2 == 1 + v2 * n
    ensures Prime(n)
  {
    PowerOn(g, q2, h2, q1, n, 1);
    forall d | 1 < d < n ensures !Divides(d, n) {
      if Divides(d, n) {
        var p := SmallerDivisor(n, d);
        OrderOfTwo(n, q1, q2, g, h1, u1, v1, h2, u2, v2, p);
        TooMany(g, q1 * q2, p);
        LargeSquare(p, q1 * q2, n);
      }
    }
  }

  lemma {:induction false} PowerRest(x: int, y: int, k: nat, n: int)
    requires n > 0 && x % n == y % n
    ensures Power(x, k) % n == Power(y, k) % n
  {
    if k > 0 {
      PowerRest(x, y, k - 1, n);
      MulBoth(x, y, Power(x, k - 1), Power(y, k - 1), n);
    }
  }

  /** A power of a power, both known by their remainders. */
  lemma PowerOn(g: int, i: nat, h: int, j: nat, n: int, r: int)
    requires n > 0 && IsPower(g, i, n, h) && IsPower(h, j, n, r)
    ensures IsPower(g, j * i, n, r)
  {
    hide Power;
    PowerOfPower(g, i, j);
    assert i * j == j * i;
    RestOfRest(Power(g, i), n);
    PowerRest(Power(g, i), h, j, n);
  }

  lemma OrderOfTwo(n: int, q1: int, q2: int, g: int, h1: int, u1: int, v1: int, h2: int, u2: int, v2: int, p: int)
    requires n > 1 && Prime(q1) && Prime(q2) && q1 < q2 && p > 1 && Divides(p, n)
    requires IsPower(g, q1 * q2, n, 1) && IsPower(g, q1, n, h1) && IsPower(g, q2, n, h2)
    requires (h1 - 1) * u1 == 1 + v1 * n && (h2 - 1) * u2 == 1 + v2 * n
    ensures FirstAt(g, q1 * q2, p)
  {
    Downwards(Power(g, q1 * q2), 1, n, p);
    Downwards(Power(g, q1), h1, n, p);
    Downwards(Power(g, q2), h2, n, p);
    Unique(1, p, 0, 1);
    NotOne(h1, u1, v1, n, p);
    NotOne(h2, u2, v2, n, p);
    assert q1 * q2 == q2 * q1;
    hide IsPower, Prime, Divides;
    forall k | 0 < k < q1 * q2 ensures Power(g, k) % p != 1 {
      NotBoth(k, q1, q2);
      if Power(g, k) % p == 1 {
        if k % q1 != 0 { RootIsOne(g, q1, q2, k, p); } else { RootIsOne(g, q2, q1, k, p); }
      }
    }
  }

  /** k and the order share less than q: the other part of the order is reached already. */
  lemma RootIsOne(g: int, q: int, other: int, k: nat, p: int)
    requires p > 1 && Prime(q) && other > 0 && k % q != 0 && Power(g, other * q) % p == 1 && Power(g, k) % p == 1
    ensures Power(g, other) % p == 1
  {
    PowerOfPower(g, other, q);
    PowerOfPower(g, other, k);
    PowerOfOne(g, k, other, p);
    assert other * k == k * other;
    OnlyOne(Power(g, other), q, k, p);
  }

  lemma NotBoth(k: nat, q1: int, q2: int)
    requires Prime(q1) && Prime(q2) && q1 < q2 && 0 < k < q1 * q2
    ensures q1 > 1 && q2 > 1 && (k % q1 != 0 || k % q2 != 0)
  {
    if k % q1 == 0 && k % q2 == 0 {
      var t := k / q1;
      assert k == q1 * t;
      PrimeUnit(q1, q2);
      hide Prime, Divides;
      Below(q1, t, q2);
      UnitCancels(q1, t, q2);
      Unique(t, q2, 0, t);
    }
  }

  /** A unit times a number is nothing only if the number is. */
  lemma UnitCancels(a: int, t: int, m: int)
    requires m > 1 && Unit(a, m) && (a * t) % m == 0
    ensures t % m == 0
  {
    var u :| (a * u) % m == 1;
    hide Unit;
    Unique(0, m, 0, 0);
    Unique(1, m, 0, 1);
    MulSame(a * t, 0, u, m);
    MulSame(a * u, 1, t, m);
    assert a * t * u == a * u * t;
  }

  lemma Below(a: int, t: int, b: int)
    requires a > 0 && 0 < a * t < a * b
    ensures 0 < t < b
  {
    Ordered(a, t, 0);
    Ordered(a, b, t);
  }

  // ---------- small numbers ----------

  /** No divisor from d up to the last one that could matter. */
  predicate Undivided(n: int, d: int, last: int)
    requires d > 0
    decreases last - d
  {
    d > last || (n % d != 0 && Undivided(n, d + 1, last))
  }

  lemma {:induction false} UndividedMeans(n: int, d: int, last: int, x: int)
    requires 0 < d <= x <= last && Undivided(n, d, last)
    ensures !Divides(x, n)
    decreases last - d
  {
    if d < x { UndividedMeans(n, d + 1, last, x); }
  }

  lemma PrimeByTrial(n: int, last: int)
    requires n > 1 && last * last > n && last > 0 && Undivided(n, 2, last)
    ensures Prime(n)
  {
    forall d | 1 < d < n ensures !Divides(d, n) {
      if Divides(d, n) {
        var p := SmallerDivisor(n, d);
        LargeSquare(p, last, n);
        UndividedMeans(n, 2, last, p);
      }
    }
  }
}
