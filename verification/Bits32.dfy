/** The 32-bit bit operators of JavaScript on the integers they are used on. */
module Bits32 {
  import opened Modular

  predicate Fits(n: nat, a: int) {
    if n == 0 then a == 0 || a == -1 else Fits(n - 1, a / 2)
  }

  predicate Int32(a: int) { -0x8000_0000 <= a < 0x8000_0000 }

  /** The bit in place i of the result is the exclusive or of the operands' bits there; place n is the sign. */
  function Xor(n: nat, a: int, b: int): int {
    if n == 0 then (if a == b then 0 else -1) else 2 * Xor(n - 1, a / 2, b / 2) + (a + b) % 2
  }

  function And(n: nat, a: int, b: int): int {
    if n == 0 then (if a == -1 && b == -1 then -1 else 0)
    else 2 * And(n - 1, a / 2, b / 2) + (if a % 2 == 1 && b % 2 == 1 then 1 else 0)
  }

  lemma {:induction false} FitsRange(n: nat, m: int, a: int)
    requires m == Two(n) && -m <= a < m
    ensures Fits(n, a)
  {
    if n > 0 { FitsRange(n - 1, Two(n - 1), a / 2); }
  }

  function Two(n: nat): (t: int)
    ensures t >= 1
  {
    if n == 0 then 1 else 2 * Two(n - 1)
  }

  lemma {:induction false} TwoSum(i: nat, j: nat)
    ensures Two(i + j) == Two(i) * Two(j)
  {
    if i > 0 { TwoSum(i - 1, j); }
  }

  lemma Int32Fits(a: int)
    requires Int32(a)
    ensures Fits(31, a)
  {
    assert Two(8) == 256 && Two(7) == 128;
    TwoSum(8, 8);
    TwoSum(8, 7);
    TwoSum(16, 15);
    FitsRange(31, Two(31), a);
  }

  lemma {:induction false} XorTwice(n: nat, a: int, b: int)
    requires Fits(n, a) && Fits(n, b)
    ensures Fits(n, Xor(n, a, b)) && Xor(n, a, Xor(n, a, b)) == b && Xor(n, b, Xor(n, a, b)) == a
  {
    if n > 0 {
      hide Xor;
      XorUnfold(n, a, b);
      XorTwice(n - 1, a / 2, b / 2);
      var x := Xor(n, a, b);
      assert x / 2 == Xor(n - 1, a / 2, b / 2) && x % 2 == (a + b) % 2;
      XorUnfold(n, a, x);
      XorUnfold(n, b, x);
      Parity(a, b, x);
      Parity(b, a, x);
    }
  }

  lemma XorUnfold(n: nat, a: int, b: int)
    requires n > 0
    ensures Xor(n, a, b) == 2 * Xor(n - 1, a / 2, b / 2) + (a + b) % 2
  {
  }

  lemma Parity(a: int, b: int, x: int)
    requires x % 2 == (a + b) % 2
    ensures (a + x) % 2 == b % 2
  {
  }

  lemma {:induction false} XorZero(n: nat, a: int)
    requires Fits(n, a)
    ensures Xor(n, a, 0) == a
  {
    if n > 0 { XorZero(n - 1, a / 2); }
  }

  lemma {:induction false} AndMask(n: nat, a: int)
    requires Fits(n, a)
    ensures And(n, -1, a) == a && And(n, 0, a) == 0
  {
    if n > 0 { AndMask(n - 1, a / 2); }
  }

  /** Masking the low k bits is the remainder by 2^k, also of a negative number. */
  lemma {:induction false} AndLow(n: nat, k: nat, a: int)
    requires k <= n && Fits(n, a)
    ensures And(n, a, Two(k) - 1) == a % Two(k)
    decreases n
  {
    if n == 0 {
    } else if k == 0 {
      AndMaskRight(n, a);
    } else {
      AndLow(n - 1, k - 1, a / 2);
      var m := Two(k - 1);
      assert (Two(k) - 1) / 2 == m - 1 && (Two(k) - 1) % 2 == 1;
      HalfMod(a, m);
    }
  }

  lemma {:induction false} AndMaskRight(n: nat, a: int)
    requires Fits(n, a)
    ensures And(n, a, 0) == 0
  {
    if n > 0 { AndMaskRight(n - 1, a / 2); }
  }

  lemma HalfMod(a: int, m: int)
    requires m > 0
    ensures a % (2 * m) == 2 * (a / 2 % m) + a % 2
  {
    var q, r := a / 2 / m, a / 2 % m;
    assert a / 2 == m * q + r;
    assert a == 2 * m * q + (2 * r + a % 2);
    Unique(a, 2 * m, q, 2 * r + a % 2);
  }

}
