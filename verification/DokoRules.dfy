/** Trumps, following suit and who wins a trick. */
module DokoRules {
  import opened DokoCards

  datatype Kind = Normal | Wedding | Damen | Buben | Fleischlos | Kreuz | Pik | Herz | Karo

  datatype Played = Played(seat: int, card: Card)

  const QUEENS := [Card(Clubs, Queen), Card(Spades, Queen), Card(Hearts, Queen), Card(Diamonds, Queen)]
  const JACKS := [Card(Clubs, Jack), Card(Spades, Jack), Card(Hearts, Jack), Card(Diamonds, Jack)]

  function SuitTrumps(s: Suit): seq<Card> {
    [HEART_TEN] + QUEENS + JACKS +
    [Card(s, Ace)] + (if s == Hearts then [] else [Card(s, Ten)]) + [Card(s, King), Card(s, Nine)]
  }

  function Trumps(kind: Kind): seq<Card> {
    match kind
    case Damen => QUEENS
    case Buben => JACKS
    case Fleischlos => []
    case Kreuz => SuitTrumps(Clubs)
    case Pik => SuitTrumps(Spades)
    case Herz => SuitTrumps(Hearts)
    case _ => SuitTrumps(Diamonds)
  }

  function PlainOrder(kind: Kind): seq<Rank> {
    match kind
    case Damen => [Ace, Ten, King, Jack, Nine]
    case Buben => [Ace, Ten, King, Queen, Nine]
    case Fleischlos => [Ace, Ten, King, Queen, Jack, Nine]
    case _ => [Ace, Ten, King, Nine]
  }

  function RankIndex(rs: seq<Rank>, r: Rank): (i: int)
    ensures -1 <= i < |rs| && (i < 0 <==> r !in rs) && (i >= 0 ==> rs[i] == r)
  {
    if rs == [] then -1 else if rs[0] == r then 0 else var i := RankIndex(rs[1..], r); if i < 0 then -1 else i + 1
  }

  datatype Led = TrumpLed | SuitLed(suit: Suit)

  predicate IsTrump(kind: Kind, c: Card) { c in Trumps(kind) }

  function Follows(trumps: seq<Card>, c: Card): Led { if c in trumps then TrumpLed else SuitLed(c.suit) }

  function Power(kind: Kind, c: Card, led: Led): int {
    var i := IndexOf(Trumps(kind), c);
    if i >= 0 then 1000 - i
    else if SuitLed(c.suit) != led then -1
    else 100 - RankIndex(PlainOrder(kind), c.rank)
  }

  function LedBy(kind: Kind, cards: seq<Played>): Led
    requires |cards| > 0
  {
    Follows(Trumps(kind), cards[0].card)
  }

  predicate SecondWins(kind: Kind, dulle: bool, c: Card) { dulle && IsTrump(kind, HEART_TEN) && c == HEART_TEN }

  function BestIndex(kind: Kind, cards: seq<Played>, upTo: nat, dulle: bool): (best: nat)
    requires 1 <= upTo <= |cards|
    ensures best < upTo
  {
    if upTo == 1 then 0
    else
      var best := BestIndex(kind, cards, upTo - 1, dulle);
      var led := LedBy(kind, cards);
      var p, q := Power(kind, cards[upTo - 1].card, led), Power(kind, cards[best].card, led);
      if p > q || (p == q && SecondWins(kind, dulle, cards[upTo - 1].card)) then upTo - 1 else best
  }

  method FindBest(kind: Kind, cards: seq<Played>, dulle: bool) returns (best: nat)
    requires |cards| > 0
    ensures best < |cards|
    ensures best == BestIndex(kind, cards, |cards|, dulle)
    ensures TakesTrick(kind, cards, dulle, best)
  {
    var led := LedBy(kind, cards);
    best := 0;
    for i := 1 to |cards|
      invariant best < i && best == BestIndex(kind, cards, i, dulle)
    {
      var p, q := Power(kind, cards[i].card, led), Power(kind, cards[best].card, led);
      if p > q || (p == q && SecondWins(kind, dulle, cards[i].card)) { best := i; }
    }
    BestTakes(kind, cards, |cards|, dulle);
  }

  // ---------- what winning means ----------

  /** Does card c beat card d, when led asks for a suit? Plainly: trump beats plain, order beats order. */
  predicate Beats(kind: Kind, c: Card, d: Card, led: Led) {
    if IsTrump(kind, c) then !IsTrump(kind, d) || IndexOf(Trumps(kind), c) < IndexOf(Trumps(kind), d)
    else
      && !IsTrump(kind, d) && SuitLed(c.suit) == led
      && (d.suit == c.suit ==> RankIndex(PlainOrder(kind), c.rank) < RankIndex(PlainOrder(kind), d.rank))
  }

  /** No card beats it; of equal cards the first one takes the trick, a second trump Heart Ten under the house rule. */
  ghost predicate TakesTrick(kind: Kind, cards: seq<Played>, dulle: bool, best: nat)
    requires |cards| > 0
  {
    && best < |cards|
    && (forall j :: 0 <= j < |cards| ==> !Beats(kind, cards[j].card, cards[best].card, LedBy(kind, cards)))
    && (forall j :: 0 <= j < |cards| && j != best && cards[j].card == cards[best].card ==>
          if SecondWins(kind, dulle, cards[best].card) then j < best else best < j)
    && Follows(Trumps(kind), cards[best].card) in {TrumpLed, LedBy(kind, cards)}
  }

  lemma PlainRank(kind: Kind, c: Card)
    requires !IsTrump(kind, c)
    ensures c.rank in PlainOrder(kind)
  {
    match kind {
      case Damen => assert c == Card(c.suit, c.rank); QueenFound(c);
      case Buben => JackFound(c);
      case Fleischlos => AnyRank(c.rank);
      case Kreuz => PlainRankSuit(Clubs, c);
      case Pik => PlainRankSuit(Spades, c);
      case Herz => PlainRankSuit(Hearts, c);
      case _ => PlainRankSuit(Diamonds, c);
    }
  }

  lemma AnyRank(r: Rank)
    ensures r in [Ace, Ten, King, Queen, Jack, Nine]
  {
    match r { case Ace => case Ten => case King => case Queen => case Jack => case Nine => }
  }

  lemma QueenFound(c: Card)
    ensures c.rank == Queen ==> c in QUEENS
  {
    match c.suit {
      case Clubs => assert QUEENS[0] == Card(Clubs, Queen);
      case Spades => assert QUEENS[1] == Card(Spades, Queen);
      case Hearts => assert QUEENS[2] == Card(Hearts, Queen);
      case Diamonds => assert QUEENS[3] == Card(Diamonds, Queen);
    }
  }

  lemma JackFound(c: Card)
    ensures c.rank == Jack ==> c in JACKS
  {
    match c.suit {
      case Clubs => assert JACKS[0] == Card(Clubs, Jack);
      case Spades => assert JACKS[1] == Card(Spades, Jack);
      case Hearts => assert JACKS[2] == Card(Hearts, Jack);
      case Diamonds => assert JACKS[3] == Card(Diamonds, Jack);
    }
  }

  lemma PlainRankSuit(s: Suit, c: Card)
    requires c !in SuitTrumps(s)
    ensures c.rank in [Ace, Ten, King, Nine]
  {
    QueenFound(c);
    JackFound(c);
  }

  /** The numbers order the cards just as the rules do. */
  lemma PowerOrders(kind: Kind, c: Card, d: Card, led: Led)
    ensures Power(kind, c, led) > Power(kind, d, led) <==> Beats(kind, c, d, led)
    ensures Power(kind, c, led) == Power(kind, d, led) >= 0 ==> c == d
  {
    hide Trumps, PlainOrder;
    FewTrumps(kind);
    if !IsTrump(kind, c) { PlainRank(kind, c); }
    if !IsTrump(kind, d) { PlainRank(kind, d); }
    PowerDiffers(kind, c, d, led);
  }

  lemma PowerDiffers(kind: Kind, c: Card, d: Card, led: Led)
    ensures Power(kind, c, led) == Power(kind, d, led) >= 0 ==> c == d
  {
    hide Trumps, PlainOrder;
    FewTrumps(kind);
    if !IsTrump(kind, c) { PlainRank(kind, c); }
    if !IsTrump(kind, d) { PlainRank(kind, d); }
  }

  lemma FewTrumps(kind: Kind)
    ensures |Trumps(kind)| <= 13 && |PlainOrder(kind)| <= 6
  {
  }

  lemma LedPower(kind: Kind, c: Card, led: Led)
    ensures Power(kind, c, led) >= 0 <==> Follows(Trumps(kind), c) in {TrumpLed, led}
  {
    FewTrumps(kind);
  }

  ghost predicate BestSoFar(kind: Kind, cards: seq<Played>, upTo: nat, dulle: bool, best: nat)
    requires |cards| > 0
  {
    var led := LedBy(kind, cards);
    && best < upTo <= |cards|
    && Power(kind, cards[best].card, led) >= 0
    && (forall j :: 0 <= j < upTo ==> Power(kind, cards[j].card, led) <= Power(kind, cards[best].card, led))
    && (forall j :: 0 <= j < upTo && j != best && cards[j].card == cards[best].card ==>
          if SecondWins(kind, dulle, cards[best].card) then j < best else best < j)
  }

  /** One comparison keeps the best card the best. */
  lemma BestStep(kind: Kind, cards: seq<Played>, upTo: nat, dulle: bool, best: nat, best': nat)
    requires 1 <= upTo < |cards| && BestSoFar(kind, cards, upTo, dulle, best)
    requires best' == if Beats(kind, cards[upTo].card, cards[best].card, LedBy(kind, cards))
      || (cards[upTo].card == cards[best].card && SecondWins(kind, dulle, cards[upTo].card)) then upTo else best
    ensures BestSoFar(kind, cards, upTo + 1, dulle, best')
  {
    hide Trumps, PlainOrder, Power, Follows, Beats, IsTrump, LedBy, SecondWins;
    var led := LedBy(kind, cards);
    PowerOrders(kind, cards[upTo].card, cards[best].card, led);
    var p := Power(kind, cards[best].card, led);
    forall j | 0 <= j < upTo + 1
      ensures Power(kind, cards[j].card, led) <= Power(kind, cards[best'].card, led)
      ensures j != best' && cards[j].card == cards[best'].card ==>
        if SecondWins(kind, dulle, cards[best'].card) then j < best' else best' < j
    {
      assert j < upTo ==> Power(kind, cards[j].card, led) <= p;
    }
  }

  lemma {:induction false} BestScan(kind: Kind, cards: seq<Played>, upTo: nat, dulle: bool)
    requires 1 <= upTo <= |cards|
    ensures BestSoFar(kind, cards, upTo, dulle, BestIndex(kind, cards, upTo, dulle))
  {
    hide Trumps, PlainOrder, Power, Follows, Beats, IsTrump, SecondWins;
    if upTo == 1 {
      LedPower(kind, cards[0].card, LedBy(kind, cards));
    } else {
      BestScan(kind, cards, upTo - 1, dulle);
      var best := BestIndex(kind, cards, upTo - 1, dulle);
      PowerOrders(kind, cards[upTo - 1].card, cards[best].card, LedBy(kind, cards));
      BestStep(kind, cards, upTo - 1, dulle, best, BestIndex(kind, cards, upTo, dulle));
    }
  }

  lemma BestTakes(kind: Kind, cards: seq<Played>, upTo: nat, dulle: bool)
    requires 1 <= upTo == |cards|
    ensures TakesTrick(kind, cards, dulle, BestIndex(kind, cards, upTo, dulle))
  {
    BestScan(kind, cards, upTo, dulle);
    var led, best := LedBy(kind, cards), BestIndex(kind, cards, upTo, dulle);
    LedPower(kind, cards[best].card, led);
    hide Trumps, PlainOrder, Power, Follows, Beats, BestIndex;
    forall j | 0 <= j < |cards| ensures !Beats(kind, cards[j].card, cards[best].card, led) {
      PowerOrders(kind, cards[j].card, cards[best].card, led);
    }
  }

  /** There is only one such card, so the rule decides every trick. */
  lemma OneTakes(kind: Kind, cards: seq<Played>, dulle: bool, i: nat, j: nat)
    requires |cards| > 0 && TakesTrick(kind, cards, dulle, i) && TakesTrick(kind, cards, dulle, j)
    ensures i == j
  {
    var led := LedBy(kind, cards);
    PowerOrders(kind, cards[i].card, cards[j].card, led);
    PowerOrders(kind, cards[j].card, cards[i].card, led);
    LedPower(kind, cards[i].card, led);
    hide Trumps, PlainOrder, Power, Follows, Beats;
    assert cards[i].card == cards[j].card;
  }

  // ---------- following suit ----------

  /** The cards of a hand that follow what was led. */
  function Same(trumps: seq<Card>, led: Led, hand: seq<Card>): (r: seq<Card>)
    ensures forall c :: c in r <==> c in hand && Follows(trumps, c) == led
  {
    if hand == [] then []
    else
      assert hand == [hand[0]] + hand[1..];
      (if Follows(trumps, hand[0]) == led then [hand[0]] else []) + Same(trumps, led, hand[1..])
  }

  function LegalCards(trumps: seq<Card>, cards: seq<Played>, hand: seq<Card>): (r: seq<Card>)
    ensures forall c :: c in r <==> MayPlay(trumps, cards, hand, c)
    ensures hand != [] ==> r != []
  {
    if cards == [] then hand
    else
      var same := Same(trumps, Follows(trumps, cards[0].card), hand);
      assert hand != [] ==> hand[0] in hand;
      if same != [] then assert same[0] in same; same else hand
  }

  /** A card may be played when it is in the hand and follows what was led, or nothing in the hand could. */
  predicate MayPlay(trumps: seq<Card>, cards: seq<Played>, hand: seq<Card>, c: Card) {
    && c in hand
    && (cards != [] && Follows(trumps, c) != Follows(trumps, cards[0].card) ==>
          forall d :: d in hand ==> Follows(trumps, d) != Follows(trumps, cards[0].card))
  }
}
