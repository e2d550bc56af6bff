/** The field arithmetic as the table runs it: in place on arrays of sixteen limbs, every number exact in a Float64. */
module FieldArrays {
  import opened FieldLimbs
  import opened Bits32

  /** Limbs small enough to multiply: a sum or a difference of two reduced ones. */
  predicate Small(s: seq<int>) { |s| == 16 && Within(s, -131146, 131146) }

  method Car(o: array<Float>)
    requires o.Length == 16 && Within(o[..], -WIDE, WIDE)
    modifies o
    ensures o[..] == Carried(old(o[..]))
  {
    ghost var s: seq<int> := o[..];
    var c := CutLimbs(o);
    hide Carry, Cut;
    CarryWide(s, 16);
    var back: Float := c - 1 + 37 * (c - 1);
    o[0] := o[0] + back;
  }

  /** Every limb cut to sixteen bits, what runs over added to the next; one more than what runs out at the top. */
  method CutLimbs(o: array<Float>) returns (c: Float)
    requires o.Length == 16 && Within(o[..], -WIDE, WIDE)
    modifies o
    ensures c == Carry(old(o[..]), 16) + 1 && forall j :: 0 <= j < 16 ==> o[j] == Cut(old(o[..]), j)
  {
    hide Carry, Cut;
    ghost var s: seq<int> := o[..];
    c := 1;
    NothingYet(s);
    for i := 0 to 16
      invariant c == Carry(s, i) + 1
      invariant forall j :: 0 <= j < i ==> o[j] == Cut(s, j)
      invariant forall j :: i <= j < 16 ==> o[j] == s[j]
    {
      CarryWide(s, i);
      CarryWide(s, i + 1);
      CutOne(s, i);
      var v: Float := o[i] + c + 65535;
      c := v / 65536;
      o[i] := v - c * 65536;
    }
  }

  lemma NothingYet(s: seq<int>)
    ensures Carry(s, 0) == 0
  {
  }

  /** The source adds 65536 before it divides and takes it off again after. */
  lemma CutOne(s: seq<int>, i: nat)
    requires i < |s|
    ensures var v := s[i] + (Carry(s, i) + 1) + 65535;
      v / 65536 == Carry(s, i + 1) + 1 && v - v / 65536 * 65536 == Cut(s, i)
  {
  }

  /** Swaps p and q when b is 1, with the bit trick of the source. */
  method Sel(p: array<Float>, q: array<Float>, b: int)
    requires p != q && p.Length == q.Length == 16 && 0 <= b <= 1
    requires forall i :: 0 <= i < 16 ==> Int32(p[i]) && Int32(q[i])
    modifies p, q
    ensures p[..] == if b == 1 then old(q[..]) else old(p[..])
    ensures q[..] == if b == 1 then old(p[..]) else old(q[..])
  {
    var c := -(b - 1) - 1;
    ghost var s: seq<int>, t: seq<int> := p[..], q[..];
    for i := 0 to 16
      invariant forall j ::
        0 <= j < i ==> p[j] == (if b == 1 then t[j] else s[j]) && q[j] == (if b == 1 then s[j] else t[j])
      invariant forall j :: i <= j < 16 ==> p[j] == s[j] && q[j] == t[j]
    {
      SelBits(p[i], q[i], b);
      var x := And(31, c, Xor(31, p[i], q[i]));
      p[i], q[i] := Xor(31, p[i], x), Xor(31, q[i], x);
    }
  }

  lemma SelBits(p: int, q: int, b: int)
    requires Int32(p) && Int32(q) && 0 <= b <= 1
    ensures var x := And(31, -(b - 1) - 1, Xor(31, p, q));
      Xor(31, p, x) == (if b == 1 then q else p) && Xor(31, q, x) == (if b == 1 then p else q)
  {
    Int32Fits(p);
    Int32Fits(q);
    XorTwice(31, p, q);
    AndMask(31, Xor(31, p, q));
    XorZero(31, p);
    XorZero(31, q);
  }

  method A(o: array<Float>, a: array<Float>, b: array<Float>)
    requires o.Length == 16 && Reduced(a[..]) && Reduced(b[..])
    modifies o
    ensures forall i :: 0 <= i < 16 ==> o[i] == old(a[i]) + old(b[i])
    ensures Small(o[..]) && Res(o[..]) == Add(old(Res(a[..])), old(Res(b[..])))
  {
    ghost var s: seq<int>, t: seq<int> := a[..], b[..];
    for i := 0 to 16
      invariant forall j :: 0 <= j < i ==> o[j] == s[j] + t[j]
      invariant forall j :: i <= j < 16 ==> a[j] == s[j] && b[j] == t[j]
    {
      o[i] := a[i] + b[i];
    }
    ValSum(s, t, o[..], 1);
    AddRes(Val(s), Val(t));
  }

  method Z(o: array<Float>, a: array<Float>, b: array<Float>)
    requires o.Length == 16 && Reduced(a[..]) && Reduced(b[..])
    modifies o
    ensures forall i :: 0 <= i < 16 ==> o[i] == old(a[i]) - old(b[i])
    ensures Small(o[..]) && Res(o[..]) == Sub(old(Res(a[..])), old(Res(b[..])))
  {
    ghost var s: seq<int>, t: seq<int> := a[..], b[..];
    for i := 0 to 16
      invariant forall j :: 0 <= j < i ==> o[j] == s[j] - t[j]
      invariant forall j :: i <= j < 16 ==> a[j] == s[j] && b[j] == t[j]
    {
      o[i] := a[i] - b[i];
    }
    ValSum(s, t, o[..], -1);
    AddRes(Val(s), Val(t));
  }

  // ---------- multiplication ----------

  const SQ: int := 17199273316

  lemma ProductBound(x: int, y: int)
    requires -131146 <= x <= 131146 && -131146 <= y <= 131146
    ensures -SQ <= x * y <= SQ
  {
    if 0 <= x {
      Monotone(x, y, 131146); Monotone(x, -131146, y);
    } else {
      Monotone(-x, y, 131146); Monotone(-x, -131146, y);
    }
  }

  /** Row i of the school multiplication: T gains a[i] times the first j limbs of b, shifted by i. */
  ghost predicate Rows(T: seq<int>, a: seq<int>, b: seq<int>, i: nat, j: nat)
    requires i <= |a| && j <= |b| && (j > 0 ==> i < |a|)
  {
    Val(T) == Val(a[..i]) * Val(b) + (if j == 0 then 0 else W(i) * (a[i] * Val(b[..j])))
  }

  lemma RowStep(T: seq<int>, a: seq<int>, b: seq<int>, i: nat, j: nat)
    requires |T| == 31 && |a| == |b| == 16 && i < 16 && j < 16 && Rows(T, a, b, i, j)
    ensures Rows(T[i + j := T[i + j] + a[i] * b[j]], a, b, i, j + 1)
  {
    hide Val, W;
    ValUpdate(T, i + j, T[i + j] + a[i] * b[j]);
    WSum(i, j);
    assert b[..j + 1] == b[..j] + [b[j]];
    ValSnoc(b[..j], b[j]);
    NoLimbs(b[..0]);
    RowAlgebra(W(i), a[i], Val(b[..j]), W(j), b[j]);
  }

  lemma NoLimbs(s: seq<int>)
    requires s == []
    ensures Val(s) == 0
  {
  }

  lemma RowAlgebra(w: int, x: int, v: int, u: int, y: int)
    ensures w * (x * (v + u * y)) == w * (x * v) + (w * u) * (x * y)
  {
    assert x * (v + u * y) == x * v + u * (x * y);
    assert w * (u * (x * y)) == (w * u) * (x * y);
  }

  lemma RowEnd(T: seq<int>, a: seq<int>, b: seq<int>, i: nat)
    requires |a| == |b| == 16 && i < 16 && Rows(T, a, b, i, 16)
    ensures Rows(T, a, b, i + 1, 0)
  {
    assert b[..16] == b;
    assert a[..i + 1][..i] == a[..i];
    assert (Val(a[..i]) + W(i) * a[i]) * Val(b) == Val(a[..i]) * Val(b) + W(i) * (a[i] * Val(b));
  }

  method Product(a: array<Float>, b: array<Float>) returns (T: array<Float>)
    requires Small(a[..]) && Small(b[..])
    ensures fresh(T) && T.Length == 31 && Within(T[..], -16 * SQ, 16 * SQ)
    ensures Val(T[..]) == Val(a[..]) * Val(b[..])
  {
    T := new Float[31](_ => 0);
    ghost var s: seq<int>, t: seq<int> := a[..], b[..];
    ZeroValue(T[..]);
    for i := 0 to 16
      invariant Rows(T[..], s, t, i, 0) && a[..] == s && b[..] == t
      invariant forall k :: 0 <= k < 31 ==> -i * SQ <= T[k] <= i * SQ
    {
      var ai := a[i];
      for j := 0 to 16
        invariant Rows(T[..], s, t, i, j) && a[..] == s && b[..] == t
        invariant forall k :: 0 <= k < 31 ==> -(i + 1) * SQ <= T[k] <= (i + 1) * SQ
        invariant forall k :: i + j <= k < 31 ==> -i * SQ <= T[k] <= i * SQ
      {
        hide Rows, Val;
        ProductBound(s[i], t[j]);
        RowStep(T[..], s, t, i, j);
        var x: Float := ai * b[j];
        assert T[..][i + j := T[i + j] + s[i] * t[j]] == T[..i + j] + [T[i + j] + x] + T[i + j + 1..];
        T[i + j] := T[i + j] + x;
      }
      RowEnd(T[..], s, t, i);
    }
    assert s[..16] == s;
  }

  lemma {:induction false} ZeroValue(s: seq<int>)
    requires forall i :: 0 <= i < |s| ==> s[i] == 0
    ensures Val(s) == 0
  {
    if s != [] { ZeroValue(s[..|s| - 1]); }
  }

  lemma FoldValue(T: seq<int>, o: seq<int>)
    requires |T| == 31 && |o| == 16 && o[15] == T[15]
    requires forall i :: 0 <= i < 15 ==> o[i] == T[i] + 38 * T[i + 16]
    ensures Res(o) == Res(T)
  {
    var low, high := T[..16], T[16..] + [0];
    ValSum(low, high, o, 38);
    ValSnoc(T[16..], 0);
    assert T == low + T[16..];
    ValConcat(low, T[16..]);
    W16();
    Drop(Val(low) + 38 * Val(high), 2 * Val(high));
    FoldAlgebra(Val(high));
  }

  lemma FoldAlgebra(v: int)
    ensures W(16) * v == 38 * v + P * (2 * v)
  {
    W16();
  }

  method M(o: array<Float>, a: array<Float>, b: array<Float>)
    requires o.Length == 16 && Small(a[..]) && Small(b[..])
    modifies o
    ensures Reduced(o[..]) && Res(o[..]) == Mul(old(Res(a[..])), old(Res(b[..])))
  {
    ghost var s: seq<int>, t: seq<int> := a[..], b[..];
    var T := Product(a, b);
    ghost var full: seq<int> := T[..];
    Fold(T);
    for i := 0 to 16
      invariant forall j :: 0 <= j < i ==> o[j] == T[j]
      invariant T[..] == Folded(full)
    {
      o[i] := T[i];
    }
    ghost var wide: seq<int> := o[..];
    assert wide == Folded(full)[..16];
    FoldBound(full);
    FoldValue(full, wide);
    MulRes(Val(s), Val(t));
    TwoPasses(wide);
    hide Res, Carried;
    Car(o);
    Car(o);
  }

  function Folded(T: seq<int>): seq<int>
    requires |T| == 31
  {
    seq(31, j requires 0 <= j < 31 => if j < 15 then T[j] + 38 * T[j + 16] else T[j])
  }

  method Fold(T: array<Float>)
    requires T.Length == 31 && Within(T[..], -16 * SQ, 16 * SQ)
    modifies T
    ensures T[..] == Folded(old(T[..]))
  {
    ghost var full: seq<int> := T[..];
    for i := 0 to 15
      invariant forall j :: 0 <= j < i ==> T[j] == full[j] + 38 * full[j + 16]
      invariant forall j :: i <= j < 31 ==> T[j] == full[j]
    {
      var x: Float := 38 * T[i + 16];
      T[i] := T[i] + x;
    }
  }

  lemma FoldBound(T: seq<int>)
    requires |T| == 31 && Within(T, -16 * SQ, 16 * SQ)
    ensures Within(Folded(T)[..16], -WIDE, WIDE)
  {
  }

  lemma TwoPasses(s: seq<int>)
    requires |s| == 16 && Within(s, -WIDE, WIDE)
    ensures Within(Carried(s), -WIDE, WIDE) && Reduced(Carried(Carried(s))) && Res(Carried(Carried(s))) == Res(s)
  {
    hide Carried, Res;
    FirstPass(s);
    SecondPass(Carried(s));
    CarriedValue(s);
    CarriedValue(Carried(s));
  }
}
