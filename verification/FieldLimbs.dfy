/** The field of 2^255 - 19 (section 4.1 of RFC 7748) in sixteen limbs of sixteen bits. */
module FieldLimbs {

  const P: int := 57896044618658097711785492504343953926634992332820282019728792003956564819949

  /** The integers a Float64 holds and adds exactly. */
  type Float = x: int | -9007199254740992 <= x <= 9007199254740992

  /** 65536 to the power i, the weight of limb i. */
  function W(i: nat): (w: int)
    ensures w >= 1
  {
    if i == 0 then 1 else 65536 * W(i - 1)
  }

  /** The number a sequence of limbs stands for, lowest limb first. */
  function Val(s: seq<int>): int {
    if s == [] then 0 else Val(s[..|s| - 1]) + W(|s| - 1) * s[|s| - 1]
  }

  /** The field element the limbs stand for. */
  function Res(s: seq<int>): (r: int)
    ensures 0 <= r < P
  {
    Val(s) % P
  }

  function Add(x: int, y: int): int { (x + y) % P }

  function Sub(x: int, y: int): int { (x - y) % P }

  function Mul(x: int, y: int): int { (x * y) % P }

  // ---------- arithmetic of weights and residues ----------

  lemma {:induction false} WSum(i: nat, j: nat)
    ensures W(i + j) == W(i) * W(j)
  {
    if i > 0 {
      WSum(i - 1, j);
      assert 65536 * (W(i - 1) * W(j)) == (65536 * W(i - 1)) * W(j);
    }
  }

  lemma W16()
    ensures W(16) == 115792089237316195423570985008687907853269984665640564039457584007913129639936 == 2 * P + 38
  {
    assert W(4) == 0x1_0000_0000_0000_0000;
    WSum(4, 4);
    WSum(8, 8);
    assert W(8) == 0x1_0000_0000_0000_0000_0000_0000_0000_0000;
  }

  lemma Spread(w: int, a: int, v: int, x: int)
    ensures w * (a + v * x) == w * a + (w * v) * x
  {
  }

  lemma Drop(x: int, k: int)
    ensures (x + P * k) % P == x % P
  {
  }

  lemma MulRes(x: int, y: int)
    ensures Mul(x, y) == Mul(x % P, y % P)
  {
    var q, r, q', r' := x / P, x % P, y / P, y % P;
    assert x == r + P * q && y == r' + P * q';
    assert x * y == r * r' + P * (q * y + r * q') by {
      assert x * y == r * y + (P * q) * y;
      assert r * y == r * r' + r * (P * q');
      assert (P * q) * y == P * (q * y);
      assert r * (P * q') == P * (r * q');
    }
    Drop(r * r', q * y + r * q');
  }

  lemma AddRes(x: int, y: int)
    ensures Add(x, y) == Add(x % P, y % P) && Sub(x, y) == Sub(x % P, y % P)
  {
    assert x == x % P + P * (x / P) && y == y % P + P * (y / P);
    Drop(x % P + y % P, x / P + y / P);
    Drop(x % P - y % P, x / P - y / P);
  }

  // ---------- sequences of limbs ----------

  lemma ValSnoc(s: seq<int>, x: int)
    ensures Val(s + [x]) == Val(s) + W(|s|) * x
  {
    assert (s + [x])[..|s|] == s;
  }

  lemma {:induction false} ValConcat(s: seq<int>, t: seq<int>)
    ensures Val(s + t) == Val(s) + W(|s|) * Val(t)
  {
    if t == [] {
      assert s + t == s;
    } else {
      var u, x := t[..|t| - 1], t[|t| - 1];
      ValConcat(s, u);
      assert s + t == (s + u) + [x];
      ValSnoc(s + u, x);
      WSum(|s|, |u|);
      Spread(W(|s|), Val(u), W(|u|), x);
    }
  }

  lemma {:induction false} ValUpdate(s: seq<int>, k: nat, x: int)
    requires k < |s|
    ensures Val(s[k := x]) == Val(s) + W(k) * (x - s[k])
  {
    var t := s[k := x];
    var u, v := s[..|s| - 1], t[..|s| - 1];
    if k == |s| - 1 {
      assert u == v;
      assert W(k) * x == W(k) * s[k] + W(k) * (x - s[k]);
    } else {
      ValUpdate(u, k, x);
      assert v == u[k := x];
    }
  }

  lemma {:induction false} ValSum(s: seq<int>, t: seq<int>, u: seq<int>, c: int)
    requires |s| == |t| == |u| && forall i :: 0 <= i < |s| ==> u[i] == s[i] + c * t[i]
    ensures Val(u) == Val(s) + c * Val(t)
  {
    if s != [] {
      var n := |s| - 1;
      ValSum(s[..n], t[..n], u[..n], c);
      Spread(W(n), s[n], c, t[n]);
      Spread(c, Val(t[..n]), W(n), t[n]);
      assert (W(n) * c) * t[n] == (c * W(n)) * t[n];
    }
  }

  // ---------- one carry pass ----------

  /** What runs over into limb i when each limb below it is cut to sixteen bits. */
  function Carry(s: seq<int>, i: nat): int
    requires i <= |s|
  {
    if i == 0 then 0 else (s[i - 1] + Carry(s, i - 1)) / 65536
  }

  function Cut(s: seq<int>, i: nat): (x: int)
    requires i < |s|
    ensures 0 <= x < 65536
  {
    (s[i] + Carry(s, i)) % 65536
  }

  /** The limbs after the pass; what runs out at the top comes back as 38 times itself, for 2^256 is 38. */
  function Carried(s: seq<int>): seq<int>
    requires |s| == 16
  {
    seq(16, i requires 0 <= i < 16 => if i == 0 then Cut(s, 0) + 38 * Carry(s, 16) else Cut(s, i))
  }

  function Cuts(s: seq<int>, n: nat): seq<int>
    requires n <= |s|
  {
    seq(n, i requires 0 <= i < n => Cut(s, i))
  }

  lemma {:induction false} CutsValue(s: seq<int>, n: nat)
    requires n <= |s|
    ensures Val(Cuts(s, n)) + W(n) * Carry(s, n) == Val(s[..n])
    decreases n
  {
    if n > 0 {
      CutsValue(s, n - 1);
      assert Cuts(s, n)[..n - 1] == Cuts(s, n - 1);
      assert s[..n][..n - 1] == s[..n - 1];
      var c, k := Carry(s, n - 1), Carry(s, n);
      assert s[n - 1] + c == 65536 * k + Cut(s, n - 1);
      Shift(W(n - 1), s[n - 1], c, Cut(s, n - 1), k);
    }
  }

  lemma Shift(w: int, x: int, c: int, y: int, k: int)
    requires x + c == 65536 * k + y
    ensures w * y + (65536 * w) * k == w * x + w * c
  {
    assert w * (x + c) == w * x + w * c;
    assert w * (65536 * k + y) == (65536 * w) * k + w * y;
  }

  /** A carry pass changes the number by a multiple of 2p, so the field element stays. */
  lemma CarriedValue(s: seq<int>)
    requires |s| == 16
    ensures Val(Carried(s)) == Val(s) - 2 * P * Carry(s, 16)
    ensures Res(Carried(s)) == Res(s)
  {
    hide Carry, Cut, W, Val, Cuts, Carried;
    var c, k := Cuts(s, 16), Carry(s, 16);
    CutsValue(s, 16);
    assert s[..16] == s;
    CarriedCuts(s);
    W16();
    Drop(Val(s), -2 * k);
  }

  lemma CarriedCuts(s: seq<int>)
    requires |s| == 16
    ensures Val(Carried(s)) == Val(Cuts(s, 16)) + 38 * Carry(s, 16)
  {
    hide Carry, W, Val;
    var c, k := Cuts(s, 16), Carry(s, 16);
    assert Carried(s) == c[0 := c[0] + 38 * k];
    ValUpdate(c, 0, c[0] + 38 * k);
    LowestWeight();
  }

  lemma LowestWeight()
    ensures W(0) == 1
  {
  }

  // ---------- how big the limbs get ----------

  predicate Within(s: seq<int>, lo: int, hi: int) { forall i :: 0 <= i < |s| ==> lo <= s[i] <= hi }

  /** After two passes: every limb in sixteen bits, the lowest one up to 38 off. */
  predicate Reduced(s: seq<int>) {
    |s| == 16 && -38 <= s[0] <= 65573 && forall i :: 1 <= i < 16 ==> 0 <= s[i] <= 65535
  }

  predicate Canonical(s: seq<int>) { |s| == 16 && Within(s, 0, 65535) }

  const WIDE: int := 0x1000_0000_0000

  lemma {:induction false} CarryWide(s: seq<int>, i: nat)
    requires i <= |s| && Within(s, -WIDE, WIDE)
    ensures -0x1000_2000 <= Carry(s, i) <= 0x1000_2000
    decreases i
  {
    if i > 0 { CarryWide(s, i - 1); }
  }

  /** One pass over wide limbs leaves only the lowest one wide. */
  predicate OnlyLowest(s: seq<int>) {
    |s| == 16 && -0x4_0000_0000 <= s[0] <= 0x4_0000_0000 && forall i :: 1 <= i < 16 ==> 0 <= s[i] <= 65535
  }

  lemma FirstPass(s: seq<int>)
    requires |s| == 16 && Within(s, -WIDE, WIDE)
    ensures OnlyLowest(Carried(s))
  {
    CarryWide(s, 16);
  }

  lemma {:induction false} CarryLowest(s: seq<int>, i: nat)
    requires OnlyLowest(s) && 1 <= i <= 16
    ensures -0x4_0000 <= Carry(s, i) <= 0x4_0000
    ensures i >= 2 ==> -4 <= Carry(s, i) <= 4
    ensures i >= 3 ==> -1 <= Carry(s, i) <= 1
    decreases i
  {
    if i > 1 { CarryLowest(s, i - 1); } else { assert Carry(s, 0) == 0; }
  }

  lemma SecondPass(s: seq<int>)
    requires OnlyLowest(s)
    ensures Reduced(Carried(s))
  {
    CarryLowest(s, 16);
  }

  /** What a third pass finds: a carry only runs through limbs that are all full, a borrow only through empty ones. */
  lemma {:induction false} CarryReduced(s: seq<int>, i: nat)
    requires Reduced(s) && 1 <= i <= 16
    ensures -1 <= Carry(s, i) <= 1
    ensures Carry(s, i) == 1 ==> Cut(s, 0) <= 37
    ensures Carry(s, i) == -1 ==> Cut(s, 0) >= 65498
    decreases i
  {
    if i > 1 { CarryReduced(s, i - 1); } else { assert Carry(s, 0) == 0; }
  }

  lemma ThirdPass(s: seq<int>)
    requires Reduced(s)
    ensures Canonical(Carried(s))
  {
    CarryReduced(s, 16);
  }

  lemma {:induction false} CanonicalValue(s: seq<int>)
    requires Within(s, 0, 65535)
    ensures 0 <= Val(s) < W(|s|)
  {
    if s != [] {
      var n := |s| - 1;
      CanonicalValue(s[..n]);
      assert 0 <= W(n) * s[n] <= W(n) * 65535 by { Monotone(W(n), 0, s[n]); Monotone(W(n), s[n], 65535); }
    }
  }

  lemma Monotone(w: int, a: int, b: int)
    requires w >= 0 && a <= b
    ensures w * a <= w * b
  {
  }
}
