/** The order JavaScript's `<` gives strings, and decimal numerals. */
module TextOrder {

  predicate Below(a: string, b: string) {
    if b == [] then false
    else if a == [] then true
    else a[0] < b[0] || (a[0] == b[0] && Below(a[1..], b[1..]))
  }

  lemma {:induction false} BelowIrreflexive(a: string)
    ensures !Below(a, a)
  {
    if a != [] { BelowIrreflexive(a[1..]); }
  }

  lemma {:induction false} BelowTransitive(a: string, b: string, c: string)
    requires Below(a, b) && Below(b, c)
    ensures Below(a, c)
  {
    if a != [] && a[0] == b[0] == c[0] { BelowTransitive(a[1..], b[1..], c[1..]); }
  }

  lemma {:induction false} BelowTotal(a: string, b: string)
    requires a != b
    ensures Below(a, b) || Below(b, a)
  {
    if a != [] && b != [] && a[0] == b[0] {
      assert a == [a[0]] + a[1..] && b == [b[0]] + b[1..];
      BelowTotal(a[1..], b[1..]);
    }
  }

  predicate IsDigit(c: char) { '0' <= c <= '9' }

  /** The decimal numeral of n, as string concatenation writes it. */
  function Decimal(n: nat): (s: string)
    ensures |s| >= 1 && forall i :: 0 <= i < |s| ==> IsDigit(s[i])
  {
    var last := [('0' as int + n % 10) as char];
    if n < 10 then last else Decimal(n / 10) + last
  }

  /** Reads digits after the value `acc` until a dot or the end. */
  function ReadDigits(acc: nat, s: string): (n: nat)
    decreases s
  {
    if s == [] || !IsDigit(s[0]) then acc
    else ReadDigits(acc * 10 + (s[0] as int - '0' as int), s[1..])
  }

  lemma {:induction false} ReadSplit(acc: nat, s: string, t: string)
    requires forall i :: 0 <= i < |s| ==> IsDigit(s[i])
    ensures ReadDigits(acc, s + t) == ReadDigits(ReadDigits(acc, s), t)
    decreases s
  {
    if s == [] {
      assert s + t == t;
    } else {
      assert (s + t)[1..] == s[1..] + t;
      ReadSplit(acc * 10 + (s[0] as int - '0' as int), s[1..], t);
    }
  }

  lemma {:induction false} ReadDecimal(n: nat)
    ensures ReadDigits(0, Decimal(n)) == n
  {
    var last := [('0' as int + n % 10) as char];
    if n < 10 {
      assert last[1..] == [];
    } else {
      ReadDecimal(n / 10);
      ReadSplit(0, Decimal(n / 10), last);
      assert last[1..] == [];
      assert ReadDigits(n / 10, last) == n / 10 * 10 + n % 10;
    }
  }
}
