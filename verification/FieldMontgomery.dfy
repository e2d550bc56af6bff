/** k times a point, on the x coordinate only: the ladder in place, against the same formulas on field elements. */
module FieldMontgomery {
  import opened FieldLimbs
  import opened FieldArrays
  import opened FieldLadder
  import opened Bits32

  /** The two points the ladder carries, as fractions a/c and b/d. */
  datatype Lad = Lad(a: int, b: int, c: int, d: int)

  function Swapped(l: Lad, r: int): Lad { if r == 1 then Lad(l.b, l.a, l.d, l.c) else l }

  function Doubled(l: Lad): int { Mul(Sub(l.a, l.c), Sub(l.a, l.c)) }

  function Squared(l: Lad): int { Mul(Add(l.a, l.c), Add(l.a, l.c)) }

  function Cross(l: Lad): int { Mul(Add(l.b, l.d), Sub(l.a, l.c)) }

  function Counter(l: Lad): int { Mul(Sub(l.b, l.d), Add(l.a, l.c)) }

  /** One rung: the first point doubled, the sum of both, from their difference x. */
  function Rung(x: int, l: Lad): Lad {
    var d, f, a, c := Squared(l), Doubled(l), Cross(l), Counter(l);
    var g := Sub(d, f);
    Lad(Mul(d, f), Mul(Add(a, c), Add(a, c)), Mul(g, Add(Mul(g, 121665), d)), Mul(Mul(Sub(a, c), Sub(a, c)), x))
  }

  function Step(x: int, l: Lad, r: int): Lad { Swapped(Rung(x, Swapped(l, r)), r) }

  function Bit(k: seq<int>, i: nat): (r: int)
    requires |k| == 32 && i < 256
    ensures 0 <= r <= 1
  {
    k[i / 8] / Two(i % 8) % 2
  }

  /** The state before bit i is used; bits 254 down to i + 1 have been. */
  function Lads(x: int, k: seq<int>, i: nat): Lad
    requires |k| == 32 && i <= 255
    decreases 255 - i
  {
    if i == 255 then Lad(1, x, 0, 1) else Step(x, Lads(x, k, i + 1), Bit(k, i))
  }

  predicate Apart(a: array<Float>, b: array<Float>, c: array<Float>, d: array<Float>, e: array<Float>,
      f: array<Float>) {
    && a != b && a != c && a != d && a != e && a != f
    && b != c && b != d && b != e && b != f
    && c != d && c != e && c != f
    && d != e && d != f && e != f
  }

  predicate Ready(a: array<Float>, b: array<Float>, c: array<Float>, d: array<Float>)
    reads a, b, c, d
  {
    Reduced(a[..]) && Reduced(b[..]) && Reduced(c[..]) && Reduced(d[..])
  }

  ghost function State(a: array<Float>, b: array<Float>, c: array<Float>, d: array<Float>): Lad
    reads a, b, c, d
  {
    Lad(Res(a[..]), Res(b[..]), Res(c[..]), Res(d[..]))
  }

  method FirstHalf(a: array<Float>, b: array<Float>, c: array<Float>, d: array<Float>, e: array<Float>, f: array<Float>)
    requires Apart(a, b, c, d, e, f) && Ready(a, b, c, d) && e.Length == f.Length == 16
    modifies a, b, c, d, e, f
    ensures Ready(a, c, d, f)
    ensures State(d, f, a, c) == old(var l := State(a, b, c, d); Lad(Squared(l), Doubled(l), Cross(l), Counter(l)))
  {
    hide Res, Reduced, Small, Add, Sub, Mul;
    Lengths(a, b, c, d);
    A(e, a, c);
    Z(a, a, c);
    A(c, b, d);
    Z(b, b, d);
    M(d, e, e);
    M(f, a, a);
    M(a, c, a);
    M(c, b, e);
  }

  lemma Lengths(a: array<Float>, b: array<Float>, c: array<Float>, d: array<Float>)
    requires Ready(a, b, c, d)
    ensures a.Length == b.Length == c.Length == d.Length == 16
  {
  }

  method SecondHalf(a: array<Float>, b: array<Float>, c: array<Float>, d: array<Float>, e: array<Float>,
      f: array<Float>, x: array<Float>, k: array<Float>)
    requires Apart(a, b, c, d, e, f) && Ready(a, c, d, f) && b.Length == e.Length == 16
    requires x !in {a, b, c, d, e, f} && k !in {a, b, c, d, e, f} && Small(x[..]) && Small(k[..])
    requires Res(k[..]) == 121665
    modifies a, b, c, d, e
    ensures Ready(a, b, c, d)
    ensures State(a, b, c, d) == old(
      var d', f', a', c' := Res(d[..]), Res(f[..]), Res(a[..]), Res(c[..]);
      var g := Sub(d', f');
      Lad(Mul(d', f'), Mul(Add(a', c'), Add(a', c')), Mul(g, Add(Mul(g, 121665), d')),
        Mul(Mul(Sub(a', c'), Sub(a', c')), Res(x[..]))))
  {
    hide Res, Reduced, Small, Add, Sub, Mul;
    Lengths(a, c, d, f);
    ReducedSmall(d[..]);
    ReducedSmall(f[..]);
    A(e, a, c);
    Z(a, a, c);
    M(b, a, a);
    ReducedSmall(b[..]);
    Z(c, d, f);
    M(a, c, k);
    A(a, a, d);
    M(c, c, a);
    M(a, d, f);
    M(d, b, x);
    M(b, e, e);
  }

  /** A whole rung with the swap by the key bit before and after. */
  method OneBit(a: array<Float>, b: array<Float>, c: array<Float>, d: array<Float>, e: array<Float>,
      f: array<Float>, x: array<Float>, k: array<Float>, r: int)
    requires Apart(a, b, c, d, e, f) && Ready(a, b, c, d) && e.Length == f.Length == 16 && 0 <= r <= 1
    requires x !in {a, b, c, d, e, f} && k !in {a, b, c, d, e, f} && Small(x[..]) && Small(k[..])
    requires Res(k[..]) == 121665
    modifies a, b, c, d, e, f
    ensures Ready(a, b, c, d) && State(a, b, c, d) == Step(Res(x[..]), old(State(a, b, c, d)), r)
  {
    hide Res, Reduced, Small, Add, Sub, Mul;
    Lengths(a, b, c, d);
    Pairs(a, b, c, d, r);
    FirstHalf(a, b, c, d, e, f);
    Lengths(a, c, d, f);
    SecondHalf(a, b, c, d, e, f, x, k);
    Pairs(a, b, c, d, r);
  }

  method Pairs(a: array<Float>, b: array<Float>, c: array<Float>, d: array<Float>, r: int)
    requires a != b && a != c && a != d && b != c && b != d && c != d && Ready(a, b, c, d) && 0 <= r <= 1
    modifies a, b, c, d
    ensures Ready(a, b, c, d) && State(a, b, c, d) == Swapped(old(State(a, b, c, d)), r)
  {
    Sel(a, b, r);
    Sel(c, d, r);
  }

  /** The x coordinate of k times the point with x coordinate u, packed into 32 bytes. */
  method Ladder(k: seq<int>, u: seq<int>, ghost e2: nat) returns (q: array<int>)
    requires |k| == |u| == 32 && (forall i :: 0 <= i < 32 ==> 0 <= u[i] < 256) && e2 + 2 == P
    ensures q.Length == 32 && forall i :: 0 <= i < 32 ==> 0 <= q[i] < 256
    ensures var x := Res(Limbs(u)[15 := Limbs(u)[15] % 0x8000]);
            var l := Lads(x, k, 0);
            Val(Limbs(q[..])) == Mul(l.a, Pow(l.c, e2)) && IsQuotient(l.a, l.c, Val(Limbs(q[..])))
  {
    var x := Unpack(u);
    ghost var rx := Res(x[..]);
    var a := Const(1, 0);
    var b := new Float[16](j requires 0 <= j < 16 reads x => x[j]);
    var c := Const(0, 0);
    var d := Const(1, 0);
    var e := Const(0, 0);
    var f := Const(0, 0);
    var m := Const(0xdb41, 1);
    assert b[..] == x[..];
    hide Res, Reduced, Small, Pow, Mul, Within, Lads, Val, Limbs, IsQuotient;
    StartLads(rx, k);
    Climb(a, b, c, d, e, f, x, m, k);
    q := Divide(a, c, e2);
  }

  method Climb(a: array<Float>, b: array<Float>, c: array<Float>, d: array<Float>, e: array<Float>,
      f: array<Float>, x: array<Float>, m: array<Float>, k: seq<int>)
    requires Apart(a, b, c, d, e, f) && Ready(a, b, c, d) && e.Length == f.Length == 16 && |k| == 32
    requires x !in {a, b, c, d, e, f} && m !in {a, b, c, d, e, f} && Small(x[..]) && Small(m[..])
    requires Res(m[..]) == 121665
    requires State(a, b, c, d) == Lads(Res(x[..]), k, 255)
    modifies a, b, c, d, e, f
    ensures Ready(a, b, c, d) && State(a, b, c, d) == Lads(Res(x[..]), k, 0)
  {
    hide Res, Reduced, Small, Lads, Bit, Step;
    ghost var rx := Res(x[..]);
    for i := 255 downto 0
      invariant Ready(a, b, c, d) && State(a, b, c, d) == Lads(rx, k, i)
      invariant x[..] == old(x[..]) && m[..] == old(m[..])
    {
      NextLads(rx, k, i);
      OneBit(a, b, c, d, e, f, x, m, Bit(k, i));
    }
  }

  /** The fraction a/c as one number: a times the inverse of c. */
  method Divide(a: array<Float>, c: array<Float>, ghost e: nat) returns (q: array<int>)
    requires a != c && Reduced(a[..]) && Reduced(c[..]) && e + 2 == P
    modifies a, c
    ensures fresh(q) && q.Length == 32 && forall i :: 0 <= i < 32 ==> 0 <= q[i] < 256
    ensures Val(Limbs(q[..])) == old(Mul(Res(a[..]), Pow(Res(c[..]), e)))
    ensures IsQuotient(old(Res(a[..])), old(Res(c[..])), Val(Limbs(q[..])))
  {
    ReducedSmall(c[..]);
    hide Res, Small, Pow, Mul, Within, Val, Limbs, IsInverse, IsQuotient;
    PowInverts(Res(c[..]), e);
    QuotientOf(Res(a[..]), Res(c[..]), Pow(Res(c[..]), e));
    Inv(c, c, e);
    ReducedSmall(a[..]);
    ReducedSmall(c[..]);
    M(a, a, c);
    ReducedWide(a[..]);
    q := Pack(a);
  }

  lemma StartLads(x: int, k: seq<int>)
    requires |k| == 32
    ensures Lads(x, k, 255) == Lad(1, x, 0, 1)
  {
  }

  lemma NextLads(x: int, k: seq<int>, i: nat)
    requires |k| == 32 && i < 255
    ensures Lads(x, k, i) == Step(x, Lads(x, k, i + 1), Bit(k, i))
  {
  }

  method Unpack(u: seq<int>) returns (x: array<Float>)
    requires |u| == 32 && forall i :: 0 <= i < 32 ==> 0 <= u[i] < 256
    ensures fresh(x) && x[..] == Limbs(u)[15 := Limbs(u)[15] % 0x8000] && Reduced(x[..]) && Small(x[..])
  {
    x := new Float[16](_ => 0);
    for i := 0 to 16
      invariant forall j :: 0 <= j < i ==> x[j] == Limbs(u)[j]
    {
      x[i] := u[2 * i] + 256 * u[2 * i + 1];
    }
    x[15] := x[15] % 0x8000;
  }

  method Const(low: Float, next: Float) returns (o: array<Float>)
    requires 0 <= low <= 65535 && 0 <= next <= 1
    ensures fresh(o) && o.Length == 16 && Reduced(o[..]) && Small(o[..]) && Res(o[..]) == low + 65536 * next
  {
    o := new Float[16](_ => 0);
    o[0] := low;
    o[1] := next;
    ConstValue(o[..]);
  }

  lemma ConstValue(s: seq<int>)
    requires |s| == 16 && forall i :: 2 <= i < 16 ==> s[i] == 0
    ensures Val(s) == s[0] + 65536 * s[1]
  {
    var z := s[2..];
    assert s == s[..2] + z;
    ValConcat(s[..2], z);
    ZeroValue(z);
    assert s[..2] == [s[0]] + [s[1]];
    ValSnoc([s[0]], s[1]);
    ValSnoc([], s[0]);
    assert [] + [s[0]] == [s[0]];
  }
}
