/**
  Shuffling and dealing together with locks that commute. A point is known here by its multiple of the base point:
  the x coordinate fixes that multiple modulo the order q up to its sign.
 */
module MpokerDeal {
  import opened Modular

  /** The x coordinate of e times the base point, as the smaller of e and -e modulo q. */
  function Point(e: int, q: int): (r: nat)
    requires q > 0
  {
    var r := e % q;
    if r <= q - r then r else q - r
  }

  /** k times a point. */
  function Times(k: int, v: nat, q: int): nat
    requires q > 0
  {
    Point(k * v, q)
  }

  datatype Secrets = Secrets(k: nat, perm: seq<int>, ki: seq<nat>)

  type Deck = seq<nat>

  /** A finished deal: the decks after each seat's shuffle and after each seat's lock, and what every seat revealed. */
  datatype Transcript = Transcript(n: nat, d1: seq<Deck>, d2: seq<Deck>, sec: seq<Secrets>)

  datatype Why = BadSecrets | BadShuffle | BadLock | BadDeck

  datatype Verdict = Fine(deck: seq<int>) | Caught(seat: int, why: Why)

  function Cards(n: nat, q: int): Deck
    requires q > 0
  {
    seq(n, i requires 0 <= i < n => Times(i + 1, 1, q))
  }

  predicate Permutes(perm: seq<int>, n: nat) {
    && |perm| == n
    && (forall i :: 0 <= i < n ==> 0 <= perm[i] < n)
    && (forall i, j :: 0 <= i < j < n ==> perm[i] != perm[j])
  }

  predicate ValidKey(k: nat, q: int) { 0 < k < q }

  predicate Valid(s: Secrets, n: nat, q: int) {
    Permutes(s.perm, n) && ValidKey(s.k, q) && |s.ki| == n && forall i :: 0 <= i < n ==> ValidKey(s.ki[i], q)
  }

  function Shuffled(deck: Deck, s: Secrets, q: int): Deck
    requires q > 0 && Valid(s, |deck|, q)
  {
    seq(|deck|, i requires 0 <= i < |deck| => Times(s.k, deck[s.perm[i]], q))
  }

  function Locked(deck: Deck, s: Secrets, q: int): Deck
    requires q > 0 && Valid(s, |deck|, q)
  {
    seq(|deck|, i requires 0 <= i < |deck| => Times(InvOf(s.k, q) * s.ki[i] % q, deck[i], q))
  }

  function KeyProduct(keys: seq<nat>, q: int): nat
    requires q > 0
  {
    if keys == [] then 1 else KeyProduct(keys[..|keys| - 1], q) * keys[|keys| - 1] % q
  }

  function IndexOf(v: nat, deck: Deck, from: nat): int
    requires from <= |deck|
    decreases |deck| - from
  {
    if from == |deck| then -1 else if deck[from] == v then from else IndexOf(v, deck, from + 1)
  }

  function Open(v: nat, keys: seq<nat>, n: nat, q: int): int
    requires q > 0
  {
    IndexOf(Times(InvOf(KeyProduct(keys, q), q), v, q), Cards(n, q), 0)
  }

  // ---------- points ----------

  lemma SamePoint(x: int, y: int, q: int)
    requires q > 0 && (x % q == y % q || x % q == (-y) % q)
    ensures Point(x, q) == Point(y, q)
  {
    NegRest(y, q);
  }

  /** A point stands for its multiple up to sign, and multiplying does not mind which sign. */
  lemma TimesPoint(k: int, e: int, q: int)
    requires q > 0
    ensures Times(k, Point(e, q), q) == Point(k * e, q)
  {
    var r := e % q;
    var v := Point(e, q);
    MulRest(e, k, q);
    assert k * r == r * k && k * e == e * k;
    if v == r {
      SamePoint(k * v, k * e, q);
    } else {
      assert k * v == -(k * r) + q * k;
      AddMultiple(-(k * r), q, k);
      NegSame(k * r, k * e, q);
      SamePoint(k * v, k * e, q);
    }
  }

  lemma NegSame(x: int, y: int, q: int)
    requires q > 0 && x % q == y % q
    ensures (-x) % q == (-y) % q
  {
    NegRest(x, q);
    NegRest(y, q);
  }

  lemma SmallPoint(e: nat, q: int)
    requires q > 0 && 2 * e < q
    ensures Point(e, q) == e
  {
    Unique(e, q, 0, e);
  }

  lemma CardsAre(n: nat, q: int)
    requires 2 * n < q
    ensures forall i :: 0 <= i < n ==> Cards(n, q)[i] == i + 1
  {
    forall i | 0 <= i < n ensures Cards(n, q)[i] == i + 1 {
      assert (i + 1) * 1 == i + 1;
      SmallPoint(i + 1, q);
    }
  }

  lemma {:induction false} FindCard(n: nat, q: int, j: nat, from: nat)
    requires 2 * n < q && from <= j < n
    ensures IndexOf(j + 1, Cards(n, q), from) == j
    decreases j - from
  {
    CardsAre(n, q);
    if from < j { FindCard(n, q, j, from + 1); }
  }

  // ---------- all the passes ----------

  predicate AllValid(secs: seq<Secrets>, n: nat, q: int) {
    forall s :: 0 <= s < |secs| ==> Valid(secs[s], n, q)
  }

  function ShuffleAll(secs: seq<Secrets>, n: nat, q: int): (d: Deck)
    requires q > 0 && AllValid(secs, n, q)
    ensures |d| == n
  {
    if secs == [] then Cards(n, q) else Shuffled(ShuffleAll(secs[..|secs| - 1], n, q), secs[|secs| - 1], q)
  }

  function LockAll(deck: Deck, secs: seq<Secrets>, q: int): (d: Deck)
    requires q > 0 && AllValid(secs, |deck|, q)
    ensures |d| == |deck|
  {
    if secs == [] then deck else Locked(LockAll(deck, secs[..|secs| - 1], q), secs[|secs| - 1], q)
  }

  /** Where position i of the shuffled deck came from: the permutations one after the other. */
  function Composed(secs: seq<Secrets>, n: nat, q: int, i: nat): (j: nat)
    requires AllValid(secs, n, q) && i < n
    ensures j < n
    decreases |secs|
  {
    if secs == [] then i else Composed(secs[..|secs| - 1], n, q, secs[|secs| - 1].perm[i])
  }

  lemma {:induction false} ComposedInjective(secs: seq<Secrets>, n: nat, q: int, i: nat, j: nat)
    requires AllValid(secs, n, q) && i < n && j < n && i != j
    ensures Composed(secs, n, q, i) != Composed(secs, n, q, j)
    decreases |secs|
  {
    if secs != [] {
      var p := secs[|secs| - 1].perm;
      assert Permutes(p, n);
      assert p[i] != p[j];
      ComposedInjective(secs[..|secs| - 1], n, q, p[i], p[j]);
    }
  }

  /** The product of the shuffle keys, of the factors that replace them, and of the position keys. */
  function Keys(secs: seq<Secrets>): int {
    if secs == [] then 1 else Keys(secs[..|secs| - 1]) * secs[|secs| - 1].k
  }

  function Inverses(secs: seq<Secrets>, q: int): int
    requires q > 0
  {
    if secs == [] then 1 else Inverses(secs[..|secs| - 1], q) * InvOf(secs[|secs| - 1].k, q)
  }

  function PositionKeys(secs: seq<Secrets>, n: nat, q: int, i: nat): int
    requires AllValid(secs, n, q) && i < n
  {
    if secs == [] then 1 else PositionKeys(secs[..|secs| - 1], n, q, i) * secs[|secs| - 1].ki[i]
  }

  lemma {:induction false} AfterShuffles(secs: seq<Secrets>, n: nat, q: int, i: nat)
    requires q > 0 && AllValid(secs, n, q) && i < n
    ensures ShuffleAll(secs, n, q)[i] == Point(Keys(secs) * (Composed(secs, n, q, i) + 1), q)
    decreases |secs|
  {
    hide Point, InvOf, Shuffled;
    if secs == [] {
      assert (i + 1) * 1 == 1 * (i + 1);
    } else {
      var most, s := secs[..|secs| - 1], secs[|secs| - 1];
      assert Valid(s, n, q) && AllValid(most, n, q);
      AfterShuffles(most, n, q, s.perm[i]);
      var c := Composed(most, n, q, s.perm[i]) + 1;
      ShuffledAt(ShuffleAll(most, n, q), s, q, i, Keys(most) * c);
      ShuffleAlgebra(s.k, Keys(most), c);
    }
  }

  lemma ShuffledAt(deck: Deck, s: Secrets, q: int, i: nat, e: int)
    requires q > 0 && Valid(s, |deck|, q) && i < |deck| && deck[s.perm[i]] == Point(e, q)
    ensures |Shuffled(deck, s, q)| == |deck| && Shuffled(deck, s, q)[i] == Point(s.k * e, q)
  {
    TimesPoint(s.k, e, q);
  }

  lemma ShuffleAlgebra(a: int, b: int, c: int)
    ensures a * (b * c) == b * a * c
  {
  }

  lemma {:induction false} AfterLocks(deck: Deck, secs: seq<Secrets>, q: int, i: nat, e: int)
    requires q > 0 && AllValid(secs, |deck|, q) && i < |deck| && deck[i] == Point(e, q)
    ensures LockAll(deck, secs, q)[i] == Point(Inverses(secs, q) * PositionKeys(secs, |deck|, q, i) * e, q)
    decreases |secs|
  {
    if secs == [] {
      assert 1 * 1 * e == e;
    } else {
      var most, s := secs[..|secs| - 1], secs[|secs| - 1];
      AfterLocks(deck, most, q, i, e);
      var x := InvOf(s.k, q) * s.ki[i];
      var y := Inverses(most, q) * PositionKeys(most, |deck|, q, i) * e;
      TimesPoint(x % q, y, q);
      MulRest(x, y, q);
      SamePoint(x % q * y, x * y, q);
      LockAlgebra(InvOf(s.k, q), s.ki[i], Inverses(most, q), PositionKeys(most, |deck|, q, i), e);
    }
  }

  lemma LockAlgebra(a: int, b: int, c: int, d: int, e: int)
    ensures a * b * (c * d * e) == (c * a) * (d * b) * e
  {
    assert a * b * (c * d * e) == a * b * (c * d) * e;
    assert a * b * (c * d) == (c * a) * (d * b);
  }

  /** The replacing factors undo the shuffle keys. */
  lemma {:induction false} KeysCancel(secs: seq<Secrets>, n: nat, q: int)
    requires Prime(q) && AllValid(secs, n, q)
    ensures (Inverses(secs, q) * Keys(secs)) % q == 1
  {
    if secs == [] {
      Unique(1, q, 0, 1);
    } else {
      var most, s := secs[..|secs| - 1], secs[|secs| - 1];
      assert AllValid(most, n, q) && Valid(s, n, q);
      KeysCancel(most, n, q);
      PrimeUnit(s.k, q);
      UnitInverse(s.k, q);
      ProductOne(Inverses(most, q), InvOf(s.k, q), Keys(most), s.k, q);
    }
  }

  lemma ProductOne(a: int, b: int, c: int, d: int, q: int)
    requires q > 1 && (a * c) % q == 1 && (b * d) % q == 1
    ensures ((a * b) * (c * d)) % q == 1
  {
    assert (a * b) * (c * d) == (a * c) * (b * d);
    MulRest(a * c, b * d, q);
  }

  function KeysAt(secs: seq<Secrets>, n: nat, q: int, i: nat): seq<nat>
    requires AllValid(secs, n, q) && i < n
  {
    seq(|secs|, s requires 0 <= s < |secs| => secs[s].ki[i])
  }

  lemma {:induction false} KeyProductIs(secs: seq<Secrets>, n: nat, q: int, i: nat)
    requires Prime(q) && AllValid(secs, n, q) && i < n
    ensures KeyProduct(KeysAt(secs, n, q, i), q) % q == PositionKeys(secs, n, q, i) % q
    ensures Unit(KeyProduct(KeysAt(secs, n, q, i), q), q)
  {
    if secs == [] {
      Unique(1, q, 0, 1);
      assert (1 * 1) % q == 1;
    } else {
      var most, s := secs[..|secs| - 1], secs[|secs| - 1];
      assert AllValid(most, n, q) && Valid(s, n, q);
      KeyProductIs(most, n, q, i);
      assert KeysAt(secs, n, q, i)[..|secs| - 1] == KeysAt(most, n, q, i);
      var p := KeyProduct(KeysAt(most, n, q, i), q);
      MulSame(p, PositionKeys(most, n, q, i), s.ki[i], q);
      PrimeUnit(s.ki[i], q);
      UnitProduct(p, s.ki[i], q);
      Unique(p * s.ki[i] % q, q, 0, p * s.ki[i] % q);
    }
  }

  /** Position i of the dealt deck, opened with every seat's key for it, shows the card the permutations put there. */
  lemma DealtCard(secs: seq<Secrets>, n: nat, q: int, i: nat)
    requires Prime(q) && 2 * n < q && AllValid(secs, n, q) && i < n
    ensures Open(LockAll(ShuffleAll(secs, n, q), secs, q)[i], KeysAt(secs, n, q, i), n, q) == Composed(secs, n, q, i)
  {
    var c := Composed(secs, n, q, i) + 1;
    var k, a, b := Keys(secs), Inverses(secs, q), PositionKeys(secs, n, q, i);
    var p := KeyProduct(KeysAt(secs, n, q, i), q);
    AfterShuffles(secs, n, q, i);
    AfterLocks(ShuffleAll(secs, n, q), secs, q, i, k * c);
    KeysCancel(secs, n, q);
    KeyProductIs(secs, n, q, i);
    UnitInverse(p, q);
    hide Keys, Inverses, PositionKeys, KeyProduct, ShuffleAll, LockAll, Composed, InvOf, Prime, Unit;
    UnlockedCard(a, b, k, c, p, q);
    FindCard(n, q, c - 1, 0);
  }

  lemma UnlockedCard(a: int, b: int, k: int, c: nat, p: nat, q: int)
    requires q > 1 && 2 * c < q + 1 && 2 * c < q && (a * k) % q == 1 && p % q == b % q && (InvOf(p, q) * p) % q == 1
    ensures Times(InvOf(p, q), Point(a * b * (k * c), q), q) == c
  {
    var u := InvOf(p, q);
    var e := a * b * (k * c);
    TimesPoint(u, e, q);
    MulSame(b, p, u, q);
    assert b * u == u * b && p * u == u * p;
    hide InvOf, Times, Point;
    RestsCancel(a, b, k, c, u, q);
    SamePoint(u * e, c, q);
    SmallPoint(c, q);
  }

  lemma RestsCancel(a: int, b: int, k: int, c: int, u: int, q: int)
    requires q > 1 && (a * k) % q == 1 && (u * b) % q == 1
    ensures (u * (a * b * (k * c))) % q == c % q
  {
    Unique(1, q, 0, 1);
    MulSame(u * b, 1, a * k * c, q);
    MulSame(a * k, 1, c, q);
    CancelAlgebra(a, b, k, c, u);
  }

  lemma CancelAlgebra(a: int, b: int, k: int, c: int, u: int)
    ensures u * (a * b * (k * c)) == (u * b) * (a * k * c)
  {
    assert a * b * (k * c) == b * (a * k * c);
  }
}
