/** Inversion, packing and the Montgomery ladder on x coordinates, as field arithmetic. */
module FieldLadder {
  import opened FieldLimbs
  import opened FieldArrays
  import opened Bits32
  import Modular
  import Primality
  import Fermat
  import FieldPrime

  // ---------- inversion: the (p-2)th power ----------

  function Pow(x: int, e: nat): int {
    if e == 0 then 1 else Mul(x, Pow(x, e - 1))
  }

  lemma MulAssoc(x: int, y: int, z: int)
    ensures Mul(Mul(x, y), z) == Mul(x, Mul(y, z))
  {
    AssocRest(x, y, z, P);
  }

  lemma AssocRest(x: int, y: int, z: int, m: int)
    requires m > 0
    ensures ((x * y) % m * z) % m == (x * ((y * z) % m)) % m
  {
    Modular.MulRest(x * y, z, m);
    Modular.MulRest(y * z, x, m);
    var c := (y * z) % m;
    assert x * c == c * x;
    assert x * y * z == y * z * x;
  }

  lemma PowRange(x: int, e: nat)
    ensures Mul(1, Pow(x, e)) == Pow(x, e)
  {
  }

  lemma {:induction false} PowSum(x: int, m: nat, n: nat)
    ensures Pow(x, m + n) == Mul(Pow(x, m), Pow(x, n))
  {
    if m == 0 {
      PowRange(x, n);
    } else {
      PowSum(x, m - 1, n);
      MulAssoc(x, Pow(x, m - 1), Pow(x, n));
    }
  }

  /** The exponent after k rounds of square-and-multiply that leave out the factor in rounds 2 and 4 from the end. */
  function Exponent(k: nat): nat
    requires k <= 254
  {
    if k == 0 then 1 else 2 * Exponent(k - 1) + (if 254 - k == 2 || 254 - k == 4 then 0 else 1)
  }

  lemma {:induction false} ExponentOnes(k: nat)
    requires k <= 249
    ensures Exponent(k) == Two(k + 1) - 1
  {
    if k > 0 { ExponentOnes(k - 1); }
  }

  lemma {:induction false} TwoWeight(i: nat)
    ensures Two(16 * i) == W(i)
  {
    if i > 0 {
      TwoWeight(i - 1);
      assert Two(8) == 256;
      TwoSum(8, 8);
      TwoSum(16, 16 * (i - 1));
    }
  }

  lemma ExponentEnd(k: nat)
    requires k == 249
    ensures Exponent(k + 5) == P - 2
  {
    hide Exponent, Two, W;
    ExponentOnes(k);
    LastRounds(k);
    TwoWeight(16);
    W16();
    Two6();
    TwoSum(k + 1, 6);
  }

  lemma Two6()
    ensures Two(6) == 64
  {
  }

  lemma LastRounds(k: nat)
    requires k == 249
    ensures Exponent(k + 5) == 32 * Exponent(k) + 11
  {
    hide Exponent;
    LastRound(k + 1);
    LastRound(k + 2);
    LastRound(k + 3);
    LastRound(k + 4);
    LastRound(k + 5);
  }

  lemma LastRound(k: nat)
    requires 0 < k <= 254
    ensures Exponent(k) == 2 * Exponent(k - 1) + (if k == 252 || k == 250 then 0 else 1)
  {
  }

  lemma {:induction false} PowIsPower(x: int, e: nat)
    ensures Pow(x, e) == Primality.Power(x, e) % P
  {
    hide Mul;
    if e > 0 {
      PowIsPower(x, e - 1);
      TimesRest(x, Primality.Power(x, e - 1));
    } else {
      Modular.Unique(1, P, 0, 1);
    }
  }

  lemma TimesRest(x: int, y: int)
    ensures Mul(x, y % P) == (x * y) % P
  {
    Modular.MulRest(y, x, P);
    assert x * (y % P) == y % P * x && x * y == y * x;
  }

  /** What there is to know of an inverse: of zero it is zero, otherwise the product is one. */
  predicate IsInverse(x: int, y: int) { 0 <= y < P && if x % P == 0 then y == 0 else Mul(x, y) == 1 }

  /** The power with exponent p - 2 is the inverse: p is prime. */
  lemma PowInverts(x: int, e: nat)
    requires e + 2 == P
    ensures IsInverse(x, Pow(x, e))
  {
    hide Primality.Power, Mul;
    FieldPrime.FieldIsPrime();
    PowIsPower(x, e);
    if x % P == 0 {
      ZeroPow(x, e);
    } else {
      Fermat.LittleTheorem(x, e + 2);
      TimesRest(x, Primality.Power(x, e));
      NextPower(x, e);
    }
  }

  lemma NextPower(x: int, e: nat)
    ensures Primality.Power(x, e + 1) == x * Primality.Power(x, e)
  {
  }

  lemma ZeroPow(x: int, e: nat)
    requires e > 0 && x % P == 0
    ensures Pow(x, e) == 0
  {
    var y := Pow(x, e - 1);
    Modular.MulRest(x, y, P);
    assert x % P * y == 0;
  }

  /** q is a divided by c; divided by zero it is zero. */
  predicate IsQuotient(a: int, c: int, q: int) { 0 <= q < P && if c % P == 0 then q == 0 else Mul(q, c) == a % P }

  /** A number times an inverse is the quotient. */
  lemma QuotientOf(a: int, c: int, i: int)
    requires IsInverse(c, i)
    ensures IsQuotient(a, c, Mul(a, i))
  {
    if c % P == 0 {
      assert a * 0 == 0;
      Modular.Unique(0, P, 0, 0);
    } else {
      assert i * c == c * i;
      MulAssoc(a, i, c);
      assert a * 1 == a;
    }
  }

  /** There is only one. */
  lemma OneQuotient(a: int, c: int, q: int, r: int)
    requires IsQuotient(a, c, q) && IsQuotient(a, c, r)
    ensures q == r
  {
    if c % P != 0 {
      FieldPrime.FieldIsPrime();
      assert q * c == c * q && r * c == c * r;
      Fermat.Differ(c, q, r, P);
    }
  }

  /** The inverse: the power with exponent p - 2. */
  method Inv(o: array<Float>, i: array<Float>, ghost e: nat)
    requires o.Length == 16 && Small(i[..]) && e + 2 == P
    modifies o
    ensures Reduced(o[..]) && Res(o[..]) == Pow(old(Res(i[..])), e) && IsInverse(old(Res(i[..])), Res(o[..]))
  {
    hide Res, Reduced, Exponent, Pow, IsInverse;
    ghost var x := Res(i[..]);
    PowInverts(x, e);
    var c := new Float[16](j requires 0 <= j < 16 reads i => i[j]);
    assert c[..] == i[..];
    PowOne(x, c[..]);
    ghost var was := i[..];
    for a := 254 downto 0
      invariant Small(c[..]) && Res(c[..]) == Pow(x, Exponent(254 - a))
      invariant a < 254 ==> Reduced(c[..])
      invariant i[..] == was && Small(was) && Res(was) == x
    {
      InvRound(x, 254 - a);
      M(c, c, c);
      ReducedSmall(c[..]);
      if a != 2 && a != 4 {
        M(c, c, i);
        ReducedSmall(c[..]);
      }
    }
    ExponentEnd(249);
    for j := 0 to 16
      invariant forall l :: 0 <= l < j ==> o[l] == c[l]
      invariant Reduced(c[..]) && Res(c[..]) == Pow(x, e)
    {
      o[j] := c[j];
    }
    assert o[..] == c[..];
  }

  lemma ReducedSmall(s: seq<int>)
    requires Reduced(s)
    ensures Small(s)
  {
  }

  lemma PowOne(x: int, s: seq<int>)
    requires x == Res(s)
    ensures Pow(x, Exponent(0)) == x
  {
    assert Pow(x, 1) == Mul(x, Pow(x, 0));
  }

  lemma InvRound(x: int, k: nat)
    requires 0 < k <= 254
    ensures var s := Mul(Pow(x, Exponent(k - 1)), Pow(x, Exponent(k - 1)));
            Pow(x, Exponent(k)) == if 254 - k == 2 || 254 - k == 4 then s else Mul(s, x)
  {
    hide Pow, Exponent;
    var e := Exponent(k - 1);
    LastRound(k);
    PowSum(x, e, e);
    if !(254 - k == 2 || 254 - k == 4) {
      PowSum(x, 2 * e, 1);
      PowTwoE(x, e);
    }
  }

  lemma PowTwoE(x: int, e: nat)
    ensures Mul(Pow(x, 2 * e), Pow(x, 1)) == Mul(Pow(x, 2 * e), x)
  {
    assert Pow(x, 1) == Mul(x, 1);
    ResFactor(Pow(x, 2 * e), x);
  }

  lemma ResFactor(y: int, x: int)
    ensures Mul(y, Mul(x, 1)) == Mul(y, x)
  {
    assert Mul(x, 1) == x % P;
    assert x % P % P == x % P;
    hide Mul;
    MulRes(y, x);
    MulRes(y, x % P);
  }

  // ---------- packing: the one representative in [0, p) ----------

  /** The limbs a string of bytes stands for, as the source reads them back. */
  function Limbs(o: seq<int>): seq<int>
    requires |o| == 32
  {
    seq(16, i requires 0 <= i < 16 => o[2 * i] + 256 * o[2 * i + 1])
  }

  const P_LIMBS: seq<int> := [0xffed, 0xffff, 0xffff, 0xffff, 0xffff, 0xffff, 0xffff, 0xffff, 0xffff, 0xffff, 0xffff,
    0xffff, 0xffff, 0xffff, 0xffff, 0x7fff]

  lemma {:induction false} FullLimbs(n: nat)
    requires n <= 14
    ensures Val(P_LIMBS[..n + 1]) == W(n + 1) - 19
  {
    hide Val, W;
    assert P_LIMBS[..n + 1] == P_LIMBS[..n] + [P_LIMBS[n]];
    ValSnoc(P_LIMBS[..n], P_LIMBS[n]);
    WStep(n);
    if n > 0 {
      FullLimbs(n - 1);
    } else {
      NoLimbs(P_LIMBS[..0]);
      LowestWeight();
    }
  }

  lemma PLimbsValue()
    ensures Val(P_LIMBS) == P
  {
    hide Val, W;
    FullLimbs(14);
    assert P_LIMBS == P_LIMBS[..15] + [0x7fff];
    TopLimb(P_LIMBS[..15]);
  }

  lemma TopLimb(low: seq<int>)
    requires |low| == 15 && Val(low) == W(15) - 19
    ensures Val(low + [0x7fff]) == P
  {
    hide Val, W;
    ValSnoc(low, 0x7fff);
    W16();
    WStep(15);
  }

  lemma WStep(n: nat)
    ensures W(n + 1) == 65536 * W(n)
  {
  }

  function Less(t: seq<int>): (r: seq<int>)
    requires |t| == 16
    ensures |r| == 16
  {
    seq(16, i requires 0 <= i < 16 => t[i] - P_LIMBS[i])
  }

  /** What the subtraction loop leaves: borrows passed up, only the top limb keeps its sign. */
  function Minus(t: seq<int>): (r: seq<int>)
    requires |t| == 16
    ensures |r| == 16
  {
    Cuts(Less(t), 15) + [Less(t)[15] + Carry(Less(t), 15)]
  }

  lemma {:induction false} BorrowRange(t: seq<int>, i: nat)
    requires Canonical(t) && i <= 15
    ensures -1 <= Carry(Less(t), i) <= 0
    decreases i
  {
    if i > 0 { BorrowRange(t, i - 1); }
  }

  /** One round of the subtraction: p less, and the sign of the top limb tells whether that was too much. */
  lemma MinusValue(t: seq<int>)
    requires Canonical(t)
    ensures Val(Minus(t)) == Val(t) - P
    ensures -32768 <= Minus(t)[15] <= 32768 && forall i :: 0 <= i < 15 ==> 0 <= Minus(t)[i] <= 65535
    ensures Minus(t)[15] < 0 <==> Val(t) < P
  {
    hide Val, Carry, Cut, W;
    var d := Less(t);
    BorrowRange(t, 15);
    ValSum(t, P_LIMBS, d, -1);
    PLimbsValue();
    CutsValue(d, 15);
    ValSnoc(Cuts(d, 15), d[15] + Carry(d, 15));
    assert d == d[..15] + [d[15]];
    ValSnoc(d[..15], d[15]);
    assert W(15) * (d[15] + Carry(d, 15)) == W(15) * d[15] + W(15) * Carry(d, 15);
    CanonicalValue(Cuts(d, 15));
    SignOf(W(15), Val(Cuts(d, 15)), d[15] + Carry(d, 15));
  }

  lemma SignOf(w: int, low: int, top: int)
    requires 0 <= low < w
    ensures top < 0 <==> low + w * top < 0
  {
    if top < 0 { Monotone(w, top, -1); } else { Monotone(w, 0, top); }
  }

  /** A round takes p away exactly when that leaves nothing negative. */
  function Taken(t: seq<int>): (r: seq<int>)
    requires |t| == 16
    ensures |r| == 16
  {
    if Minus(t)[15] < 0 then t else Minus(t)
  }

  lemma TakenValue(t: seq<int>)
    requires Canonical(t)
    ensures Canonical(Taken(t)) && Val(Taken(t)) == if Val(t) < P then Val(t) else Val(t) - P
  {
    hide Val;
    MinusValue(t);
  }

  lemma PackedValue(s: seq<int>)
    requires |s| == 16 && Within(s, -WIDE, WIDE)
    ensures var t := Carried(Carried(Carried(s)));
            Canonical(t) && Canonical(Taken(t)) && Canonical(Taken(Taken(t))) && Val(Taken(Taken(t))) == Res(s)
  {
    hide Val, Cut, Carry, Taken, W;
    var r := Carried(Carried(s));
    var t := Carried(r);
    TwoPasses(s);
    ThirdPass(r);
    CarriedValue(r);
    CanonicalValue(t);
    W16();
    TakenValue(t);
    TakenValue(Taken(t));
    ResOf(Val(t), Val(Taken(Taken(t))));
  }

  lemma ResOf(v: int, u: int)
    requires 0 <= u < P && (v == u || v == u + P || v == u + 2 * P)
    ensures u == v % P
  {
  }

  lemma LessAt(t: seq<int>, i: nat)
    requires |t| == 16 && i < 16
    ensures Less(t)[i] == t[i] - (if i == 0 then 0xffed else if i == 15 then 0x7fff else 0xffff)
  {
  }

  lemma MinusAt(t: seq<int>, m: seq<int>)
    requires |t| == |m| == 16 && (forall j :: 0 <= j < 15 ==> m[j] == Cut(Less(t), j))
    requires m[15] == Less(t)[15] + Carry(Less(t), 15)
    ensures m == Minus(t)
  {
  }

  method BorrowUp(t: array<Float>, m: array<Float>)
    requires t != m && t.Length == m.Length == 16 && Canonical(t[..])
    modifies m
    ensures var d := Less(t[..]); (forall j :: 0 <= j < 14 ==> m[j] == Cut(d, j)) && m[14] == d[14] + Carry(d, 14)
  {
    ghost var s: seq<int> := t[..];
    ghost var d := Less(s);
    assert Carry(d, 0) == 0;
    hide Less, P_LIMBS, Carry, Cut, And;
    m[0] := t[0] - 0xffed;
    LessAt(s, 0);
    for i := 1 to 15
      invariant m[i - 1] == d[i - 1] + Carry(d, i - 1)
      invariant forall j :: 0 <= j < i - 1 ==> m[j] == Cut(d, j)
    {
      LessAt(s, i - 1);
      LessAt(s, i);
      BorrowRange(s, i - 1);
      BorrowRange(s, i);
      BorrowBit(d, i - 1, m[i - 1]);
      m[i] := t[i] - 0xffff - And(31, m[i - 1] / 65536, 1);
      m[i - 1] := And(31, m[i - 1], 0xffff);
    }
  }

  method SubtractP(t: array<Float>, m: array<Float>) returns (b: int)
    requires t != m && t.Length == m.Length == 16 && Canonical(t[..])
    modifies m
    ensures m[..] == Minus(t[..]) && b == if Minus(t[..])[15] < 0 then 1 else 0
  {
    hide Less, P_LIMBS, Carry, Cut, And, Minus;
    ghost var s: seq<int> := t[..];
    ghost var d := Less(s);
    BorrowUp(t, m);
    LessAt(s, 14);
    LessAt(s, 15);
    BorrowRange(s, 14);
    BorrowRange(s, 15);
    BorrowBit(d, 14, m[14]);
    m[15] := t[15] - 0x7fff - And(31, m[14] / 65536, 1);
    SignBit(m[15]);
    b := And(31, m[15] / 65536, 1);
    m[14] := And(31, m[14], 0xffff);
    MinusAt(s, m[..]);
  }

  lemma BorrowBit(d: seq<int>, i: nat, x: int)
    requires i + 1 <= |d| && x == d[i] + Carry(d, i) && -65536 <= x < 65536
    ensures And(31, x / 65536, 1) == -Carry(d, i + 1) && And(31, x, 0xffff) == Cut(d, i)
    ensures 0 <= And(31, x, 0xffff) < 65536
  {
    SignBit(x);
    LowBits(x);
  }

  lemma LowBits(x: int)
    requires -65536 <= x < 65536
    ensures And(31, x, 0xffff) == x % 65536 && And(31, x, 0xff) == x % 256
  {
    Int32Fits(x);
    assert Two(8) == 256;
    TwoSum(8, 8);
    hide And, Fits, Two;
    AndLow(31, 16, x);
    AndLow(31, 8, x);
  }

  lemma SignBit(x: int)
    requires -65536 <= x < 65536
    ensures And(31, x / 65536, 1) == if x < 0 then 1 else 0
  {
    Int32Fits(x / 65536);
    assert Two(1) == 2;
    hide And, Fits, Two;
    AndLow(31, 1, x / 65536);
  }

  method Pack(n: array<Float>) returns (o: array<int>)
    requires n.Length == 16 && Within(n[..], -WIDE, WIDE)
    ensures fresh(o) && o.Length == 32 && (forall k :: 0 <= k < 32 ==> 0 <= o[k] < 256)
    ensures Val(Limbs(o[..])) == Res(n[..])
  {
    var m := new Float[16](_ => 0);
    var t := new Float[16](j requires 0 <= j < 16 reads n => n[j]);
    assert t[..] == n[..];
    TwoPasses(n[..]);
    PackedValue(n[..]);
    ReducedWide(Carried(Carried(n[..])));
    Car(t);
    Car(t);
    Car(t);
    TakeP(t, m);
    TakeP(t, m);
    o := WriteBytes(t);
  }

  lemma ReducedWide(s: seq<int>)
    requires Reduced(s)
    ensures Within(s, -WIDE, WIDE)
  {
  }

  method TakeP(t: array<Float>, m: array<Float>)
    requires t != m && t.Length == m.Length == 16 && Canonical(t[..])
    modifies t, m
    ensures t[..] == Taken(old(t[..]))
  {
    MinusValue(t[..]);
    hide Minus, Val;
    var b := SubtractP(t, m);
    Sel(t, m, 1 - b);
  }

  method WriteBytes(t: array<Float>) returns (o: array<int>)
    requires Canonical(t[..])
    ensures fresh(o) && o.Length == 32 && (forall k :: 0 <= k < 32 ==> 0 <= o[k] < 256)
    ensures Limbs(o[..]) == t[..]
  {
    hide And;
    o := new int[32](_ => 0);
    for i := 0 to 16
      invariant forall k :: 0 <= k < 32 ==> 0 <= o[k] < 256
      invariant forall j :: 0 <= j < i ==> o[2 * j] + 256 * o[2 * j + 1] == t[j]
    {
      LowBits(t[i]);
      o[2 * i] := And(31, t[i], 0xff);
      o[2 * i + 1] := t[i] / 256;
    }
  }
}
