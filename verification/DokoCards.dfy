/** The double pack of Doppelkopf: 24 cards, each twice, worth 240 eyes. */
module DokoCards {
  datatype Suit = Clubs | Spades | Hearts | Diamonds
  datatype Rank = Ace | Ten | King | Queen | Jack | Nine
  datatype Card = Card(suit: Suit, rank: Rank)

  const HAND: nat := 12
  const CLUB_QUEEN := Card(Clubs, Queen)
  const HEART_TEN := Card(Hearts, Ten)

  function EyesOf(r: Rank): nat {
    match r
    case Ace => 11
    case Ten => 10
    case King => 4
    case Queen => 3
    case Jack => 2
    case Nine => 0
  }

  function Eyes(c: Card): nat { EyesOf(c.rank) }

  function Count(cs: seq<Card>, c: Card): nat {
    if cs == [] then 0 else Count(cs[..|cs| - 1], c) + if cs[|cs| - 1] == c then 1 else 0
  }

  function EyeSum(cs: seq<Card>): nat {
    if cs == [] then 0 else EyeSum(cs[..|cs| - 1]) + Eyes(cs[|cs| - 1])
  }

  function OfRank(cs: seq<Card>, r: Rank): nat {
    if cs == [] then 0 else OfRank(cs[..|cs| - 1], r) + if cs[|cs| - 1].rank == r then 1 else 0
  }

  lemma CountSnoc(cs: seq<Card>, x: Card, c: Card)
    ensures Count(cs + [x], c) == Count(cs, c) + if x == c then 1 else 0
  {
    assert (cs + [x])[..|cs|] == cs;
  }

  lemma {:induction false} CountSum(a: seq<Card>, b: seq<Card>, c: Card)
    ensures Count(a + b, c) == Count(a, c) + Count(b, c)
    decreases |b|
  {
    if b == [] {
      assert a + b == a;
    } else {
      CountSum(a, b[..|b| - 1], c);
      assert a + b == (a + b[..|b| - 1]) + [b[|b| - 1]];
      CountSnoc(a + b[..|b| - 1], b[|b| - 1], c);
    }
  }

  lemma {:induction false} EyeSumOf(a: seq<Card>, b: seq<Card>)
    ensures EyeSum(a + b) == EyeSum(a) + EyeSum(b)
    decreases |b|
  {
    if b == [] {
      assert a + b == a;
    } else {
      EyeSumOf(a, b[..|b| - 1]);
      assert (a + b)[..|a + b| - 1] == a + b[..|b| - 1];
    }
  }

  lemma {:induction false} CountIn(cs: seq<Card>, c: Card)
    ensures c in cs <==> Count(cs, c) > 0
  {
    if cs != [] {
      CountIn(cs[..|cs| - 1], c);
      assert cs == cs[..|cs| - 1] + [cs[|cs| - 1]];
    }
  }

  // ---------- the whole pack ----------

  ghost predicate WholePack(cs: seq<Card>) { forall c :: Count(cs, c) == 2 }

  lemma {:induction false} RankBySuit(cs: seq<Card>, r: Rank)
    ensures OfRank(cs, r) == Count(cs, Card(Clubs, r)) + Count(cs, Card(Spades, r)) + Count(cs, Card(Hearts, r))
      + Count(cs, Card(Diamonds, r))
  {
    if cs != [] {
      RankBySuit(cs[..|cs| - 1], r);
      var x := cs[|cs| - 1];
      assert x == Card(x.suit, x.rank);
      match x.suit { case Clubs => case Spades => case Hearts => case Diamonds => }
    }
  }

  lemma {:induction false} SizeByRank(cs: seq<Card>)
    ensures |cs| == OfRank(cs, Ace) + OfRank(cs, Ten) + OfRank(cs, King) + OfRank(cs, Queen) + OfRank(cs, Jack)
      + OfRank(cs, Nine)
    ensures EyeSum(cs) == 11 * OfRank(cs, Ace) + 10 * OfRank(cs, Ten) + 4 * OfRank(cs, King) + 3 * OfRank(cs, Queen)
      + 2 * OfRank(cs, Jack)
  {
    if cs != [] { SizeByRank(cs[..|cs| - 1]); }
  }

  lemma RankAtMostEight(cs: seq<Card>, r: Rank)
    requires forall c :: Count(cs, c) <= 2
    ensures OfRank(cs, r) <= 8
    ensures OfRank(cs, r) == 8 ==> forall s :: Count(cs, Card(s, r)) == 2
  {
    RankBySuit(cs, r);
    assert forall s :: Count(cs, Card(s, r)) <= 2;
    forall s | OfRank(cs, r) == 8 ensures Count(cs, Card(s, r)) == 2 {
      match s { case Clubs => case Spades => case Hearts => case Diamonds => }
    }
  }

  /** 48 cards, none more than twice, are the whole pack and count 240 eyes. */
  lemma FullPack(cs: seq<Card>)
    requires |cs| == 48 && forall c :: Count(cs, c) <= 2
    ensures WholePack(cs) && EyeSum(cs) == 240
  {
    SizeByRank(cs);
    forall r ensures OfRank(cs, r) <= 8 { RankAtMostEight(cs, r); }
    assert OfRank(cs, Ace) == 8;
    forall c ensures Count(cs, c) == 2 {
      RankAtMostEight(cs, c.rank);
      assert OfRank(cs, c.rank) == 8 by {
        match c.rank { case Ace => case Ten => case King => case Queen => case Jack => case Nine => }
      }
      assert c == Card(c.suit, c.rank);
    }
  }

  // ---------- hands ----------

  function IndexOf(cs: seq<Card>, c: Card): (i: int)
    ensures -1 <= i < |cs| && (i < 0 <==> c !in cs)
    ensures i >= 0 ==> cs[i] == c && c !in cs[..i]
  {
    if cs == [] then -1
    else if cs[0] == c then 0
    else var i := IndexOf(cs[1..], c); if i < 0 then -1 else assert cs[..i + 1] == [cs[0]] + cs[1..][..i]; i + 1
  }

  /** The hand after playing a card: its first copy is gone. */
  function Without(cs: seq<Card>, c: Card): seq<Card> {
    var i := IndexOf(cs, c);
    if i < 0 then cs else cs[..i] + cs[i + 1..]
  }

  lemma CountWithout(cs: seq<Card>, c: Card, d: Card)
    requires c in cs
    ensures |Without(cs, c)| == |cs| - 1
    ensures Count(Without(cs, c), d) == Count(cs, d) - if c == d then 1 else 0
  {
    var i := IndexOf(cs, c);
    assert cs == (cs[..i] + [c]) + cs[i + 1..];
    CountSum(cs[..i] + [c], cs[i + 1..], d);
    CountSnoc(cs[..i], c, d);
    CountSum(cs[..i], cs[i + 1..], d);
  }
}
