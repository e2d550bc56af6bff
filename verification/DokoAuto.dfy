/** The actions a seat is offered, and the move made for a player who is away. */
module DokoAuto {
  import opened Options
  import opened DokoCards
  import opened DokoRules
  import opened DokoGame
  import opened DokoRuns
  import opened DokoScore
  import opened DokoAudit
  import opened DokoProgress

  const SOLOS: seq<Kind> := [Damen, Buben, Fleischlos, Kreuz, Pik, Herz, Karo]

  function SoloActions(seat: int, upTo: nat): (r: seq<Action>)
    requires upTo <= |SOLOS|
    ensures forall a ::
      a in r ==> a.Reserve? && a.seat == seat && a.v.SoloOf? && a.v.kind != Normal && a.v.kind != Wedding
  {
    if upTo == 0 then [] else SoloActions(seat, upTo - 1) + [Reserve(seat, SoloOf(SOLOS[upTo - 1]))]
  }

  /** Every different card once. */
  function PlayActions(seat: int, cards: seq<Card>): (r: seq<Action>)
    ensures forall a :: a in r ==> a.Play? && a.seat == seat && a.card in cards
    ensures forall c :: c in cards ==> Play(seat, c) in r
  {
    if cards == [] then []
    else
      var most, c := cards[..|cards| - 1], cards[|cards| - 1];
      assert cards == most + [c];
      PlayActions(seat, most) + if c in most then [] else [Play(seat, c)]
  }

  function OwnParty(s: State, seat: int, hand: seq<Card>): Option<Party>
    requires Sized(s) && 0 <= seat < 4
  {
    var k := KnownParty(s, seat);
    if k.Some? then k
    else if s.kind == Wedding then None
    else if Count(hand, CLUB_QUEEN) + PlayedBy(Plays(s), seat, CLUB_QUEEN) > 0 then Some(Re) else Some(Kontra)
  }

  function CallFor(p: Party, lvl: int): CallName
    requires 0 <= lvl <= 4
  {
    if lvl == 0 then (if p == Re then SayRe else SayKontra)
    else if lvl == 1 then K90 else if lvl == 2 then K60 else if lvl == 3 then K30 else Black
  }

  function CallActions(s: State, seat: int, hand: seq<Card>): seq<Action>
    requires Sized(s) && 0 <= seat < 4
  {
    var p := OwnParty(s, seat, hand);
    if p == None then []
    else
      var lvl := Level(s, p.value) + 1;
      if lvl <= 4 && CallOk(s, seat, p.value, lvl) then [Announce(seat, p.value, CallFor(p.value, lvl))] else []
  }

  function Actions(s: State, seat: int, hand: seq<Card>): seq<Action>
    requires Sized(s) && 0 <= seat < 4
  {
    if s.phase == Reserving && s.ask == seat then [Reserve(seat, Healthy), Reserve(seat, Reservation)]
    else if s.phase == Asking && s.ask == seat then
      SoloActions(seat, |SOLOS|) + if Count(hand, CLUB_QUEEN) == 2 then [Reserve(seat, Marriage)] else []
    else if s.phase != Playing then []
    else
      (if Turn(s) == seat then PlayActions(seat, LegalCards(Trumps(s.kind), s.cards, hand)) else [])
        + CallActions(s, seat, hand)
  }

  // ---------- the true hand ----------

  function PlayedBy(ps: seq<Played>, seat: int, c: Card): nat {
    if ps == [] then 0 else PlayedBy(ps[..|ps| - 1], seat, c) + if ps[|ps| - 1] == Played(seat, c) then 1 else 0
  }

  function NumberBy(ps: seq<Played>, seat: int): nat {
    if ps == [] then 0 else NumberBy(ps[..|ps| - 1], seat) + if ps[|ps| - 1].seat == seat then 1 else 0
  }

  /** What is left and what was played make up the hand. */
  lemma {:induction false} LeftCounts(trumps: seq<Card>, hands: seq<seq<Card>>, ps: seq<Played>, seat: int, c: Card)
    requires |hands| == 4 && Seated(ps) && AllLegal(trumps, hands, ps) && 0 <= seat < 4
    ensures Count(Left(hands[seat], ps, seat), c) + PlayedBy(ps, seat, c) == Count(hands[seat], c)
    ensures |Left(hands[seat], ps, seat)| + NumberBy(ps, seat) == |hands[seat]|
  {
    hide Count, Without, LegalAt;
    if ps != [] {
      var most, x := ps[..|ps| - 1], ps[|ps| - 1];
      assert ps == most + [x];
      LegalSnoc(trumps, hands, most, x);
      LeftCounts(trumps, hands, most, seat, c);
      if x.seat == seat { CountWithout(Left(hands[seat], most, seat), x.card, c); }
    }
  }

  lemma {:induction false} AllPlayed(ps: seq<Played>, c: Card)
    requires Seated(ps)
    ensures Count(CardsOf(ps), c) == PlayedBy(ps, 0, c) + PlayedBy(ps, 1, c) + PlayedBy(ps, 2, c) + PlayedBy(ps, 3, c)
  {
    if ps != [] {
      var most, x := ps[..|ps| - 1], ps[|ps| - 1];
      assert ps == most + [x];
      AllPlayed(most, c);
      assert CardsOf(ps) == CardsOf(most) + [x.card];
      CountSnoc(CardsOf(most), x.card, c);
      assert x == Played(x.seat, x.card);
    }
  }

  /** A card still in a true hand cannot have been played twice. */
  lemma StillFree(trumps: seq<Card>, hands: seq<seq<Card>>, ps: seq<Played>, seat: int, c: Card)
    requires ValidDeal(hands) && Seated(ps) && AllLegal(trumps, hands, ps) && 0 <= seat < 4
    requires c in Left(hands[seat], ps, seat)
    ensures Count(CardsOf(ps), c) < 2
  {
    hide Count, AllLegal, Left, PlayedBy;
    forall x | 0 <= x < 4 ensures PlayedBy(ps, x, c) <= Count(hands[x], c) { LeftCounts(trumps, hands, ps, x, c); }
    LeftCounts(trumps, hands, ps, seat, c);
    CountIn(Left(hands[seat], ps, seat), c);
    AllPlayed(ps, c);
    assert PlayedBy(ps, 0, c) <= Count(hands[0], c);
    assert PlayedBy(ps, 1, c) <= Count(hands[1], c);
    assert PlayedBy(ps, 2, c) <= Count(hands[2], c);
    assert PlayedBy(ps, 3, c) <= Count(hands[3], c);
  }

  lemma {:induction false} NumberSum(a: seq<Played>, b: seq<Played>, seat: int)
    ensures NumberBy(a + b, seat) == NumberBy(a, seat) + NumberBy(b, seat)
    decreases |b|
  {
    if b == [] {
      assert a + b == a;
    } else {
      NumberSum(a, b[..|b| - 1], seat);
      assert (a + b)[..|a + b| - 1] == a + b[..|b| - 1];
    }
  }

  lemma {:induction false} OnceATrick(lead: int, cards: seq<Played>, seat: int)
    requires InOrder(lead, cards) && |cards| <= 4 && 0 <= seat < 4
    ensures NumberBy(cards, seat) == if Behind(lead, seat) < |cards| then 1 else 0
  {
    if cards != [] {
      OnceATrick(lead, cards[..|cards| - 1], seat);
      assert cards[|cards| - 1].seat == Next(lead, |cards| - 1);
    }
  }

  lemma {:induction false} OnceEach(tricks: seq<Trick>, seat: int)
    requires (forall k :: 0 <= k < |tricks| ==> TrickOk(tricks[k])) && 0 <= seat < 4
    ensures NumberBy(Flat(tricks), seat) == |tricks|
  {
    hide EyeSum;
    if tricks != [] {
      var most, t := tricks[..|tricks| - 1], tricks[|tricks| - 1];
      OnceEach(most, seat);
      assert TrickOk(t);
      NumberSum(Flat(most), t.cards, seat);
      OnceATrick(t.lead, t.cards, seat);
    }
  }

  lemma PlayedNumber(s: State, seat: int)
    requires Inv(s) && 0 <= seat < 4
    ensures NumberBy(Plays(s), seat) == s.played[seat]
    ensures s.phase == Playing && Turn(s) == seat ==> s.played[seat] < HAND
  {
    TableHolds(s);
    OnceEach(s.tricks, seat);
    NumberSum(Flat(s.tricks), s.cards, seat);
    OnceATrick(s.lead, s.cards, seat);
    hide TrickOk, AtMostTwice, Sides, TalkOk, Flat, NumberBy;
  }

  // ---------- everything offered is accepted ----------

  ghost predicate HonestSoFar(s: State, hands: seq<seq<Card>>) {
    |hands| == 4 && Inv(s) && ValidDeal(hands) && Honest(s, hands) && Claimed(s.claim, s.calls)
  }

  /** A seat is booked for a party only by a call it made for that party. */
  ghost predicate Claimed(claim: seq<Option<Party>>, calls: seq<Call>) {
    forall x :: 0 <= x < |claim| && claim[x].Some? ==>
      exists i :: 0 <= i < |calls| && calls[i].seat == x && calls[i].party == claim[x].value
  }

  lemma PlayAccepted(s: State, hands: seq<seq<Card>>, seat: int, card: Card)
    requires HonestSoFar(s, hands) && 0 <= seat < 4 && s.phase == Playing && Turn(s) == seat
    requires card in LegalCards(Trumps(s.kind), s.cards, Left(hands[seat], Plays(s), seat))
    ensures Apply(s, Play(seat, card)).Ok? && Truthful(s, hands, Play(seat, card))
  {
    hide Trumps, AllLegal, Left, Plays, AtMostTwice, TableOk, Sides, TalkOk;
    hide ValidDeal, MarriagesTrue, CallsTrue, Count, CloseTrick, LegalCards, Follows;
    assert MayPlay(Trumps(s.kind), s.cards, Left(hands[seat], Plays(s), seat), card);
    StillFree(Trumps(s.kind), hands, Plays(s), seat, card);
  }

  lemma CallAccepted(s: State, hand: seq<Card>, seat: int, a: Action)
    requires Inv(s) && 0 <= seat < 4 && a in CallActions(s, seat, hand)
    ensures Apply(s, a).Ok?
  {
    hide TalkOk, TableOk, AtMostTwice, Plays, CallOk, Count, PlayedBy;
  }

  /** The party a seat finds for itself in a normal game is the one its Club Queens make it. */
  lemma OwnPartyTrue(s: State, hands: seq<seq<Card>>, seat: int)
    requires HonestSoFar(s, hands) && 0 <= seat < 4 && s.kind == Normal
    ensures OwnParty(s, seat, Left(hands[seat], Plays(s), seat)) ==
      Some(if QueensOf(hands, seat) > 0 then Re else Kontra)
  {
    hide Trumps, AllLegal, Left, Plays, AtMostTwice, TableOk, Sides, TalkOk, ValidDeal, MarriagesTrue, Count, PlayedBy;
    LeftCounts(Trumps(s.kind), hands, Plays(s), seat, CLUB_QUEEN);
    if s.claim[seat].Some? {
      var i :| 0 <= i < |s.calls| && s.calls[i].seat == seat && s.calls[i].party == s.claim[seat].value;
      assert s.calls[i].party == Re <==> QueensOf(hands, s.calls[i].seat) > 0;
    }
  }

  lemma CallTrue(s: State, hands: seq<seq<Card>>, seat: int, a: Action)
    requires HonestSoFar(s, hands) && 0 <= seat < 4 && a in CallActions(s, seat, Left(hands[seat], Plays(s), seat))
    ensures a.seat == seat && Truthful(s, hands, a)
  {
    hide HonestSoFar, OwnParty, CallOk, Left, Plays, QueensOf;
    if s.kind == Normal { OwnPartyTrue(s, hands, seat); }
  }

  /** While the reservations go round no card has been played. */
  lemma NoneYet(s: State, hands: seq<seq<Card>>, seat: int)
    requires Inv(s) && s.phase in {Reserving, Asking} && 0 <= seat < |hands|
    ensures Left(hands[seat], Plays(s), seat) == hands[seat]
  {
    hide AtMostTwice, Sides, QueueOk, Unclaimed, TrickOk, PlayedOk;
    assert Plays(s) == [];
  }

  /** For every valid deal, everything offered for the true remaining hand is accepted, and true. */
  lemma OfferedIsAccepted(s: State, hands: seq<seq<Card>>, seat: int, a: Action)
    requires HonestSoFar(s, hands) && 0 <= seat < 4 && a in Actions(s, seat, Left(hands[seat], Plays(s), seat))
    ensures Apply(s, a).Ok? && a.seat == seat && Truthful(s, hands, a)
  {
    var hand := Left(hands[seat], Plays(s), seat);
    hide Left, Plays, Honest, Claimed, ValidDeal, TalkOk, TableOk;
    hide AtMostTwice, Sides, CallActions, LegalCards, Trumps, MayPlay;
    hide PlayActions, SoloActions, ApplyPlay, ApplyCall, Count;
    if s.phase == Playing {
      if a in CallActions(s, seat, hand) {
        CallAccepted(s, hand, seat, a);
        CallTrue(s, hands, seat, a);
      } else {
        PlayAccepted(s, hands, seat, a.card);
      }
    } else if s.phase in {Reserving, Asking} {
      NoneYet(s, hands, seat);
    }
  }

  /** A run in which every seat only does what it is offered for its true hand. */
  ghost predicate OfferedRun(s: State, hands: seq<seq<Card>>, acts: seq<Action>)
    requires |hands| == 4
    decreases |acts|
  {
    acts == [] || (
      var most, a := acts[..|acts| - 1], acts[|acts| - 1];
      var r := Run(s, most);
      && OfferedRun(s, hands, most) && r.Ok? && Sized(r.state) && 0 <= a.seat < 4
      && a in Actions(r.state, a.seat, Left(hands[a.seat], Plays(r.state), a.seat)))
  }

  lemma {:induction false} OfferedKeeps(s: State, hands: seq<seq<Card>>, acts: seq<Action>)
    requires HonestSoFar(s, hands) && OfferedRun(s, hands, acts)
    ensures Run(s, acts).Ok? && HonestSoFar(Run(s, acts).state, hands) && HonestRun(s, hands, acts)
    decreases |acts|
  {
    hide Honest, ValidDeal, Claimed, TalkOk, TableOk, AtMostTwice, Sides, Apply, Actions, Left, Plays, Truthful;
    if acts != [] {
      var most, a := acts[..|acts| - 1], acts[|acts| - 1];
      OfferedKeeps(s, hands, most);
      var now := Run(s, most).state;
      OfferedIsAccepted(now, hands, a.seat, a);
      HonestStep(now, hands, a);
    }
  }

  /** Whoever only does what is offered is accepted every time, and the audit of the hand finds nothing. */
  lemma OfferedIsClean(dealer: Seat, dulle: bool, noSpecials: bool, hands: seq<seq<Card>>, acts: seq<Action>)
    requires |hands| == 4 && ValidDeal(hands) && OfferedRun(Start(dealer, dulle, noSpecials), hands, acts)
    ensures var r := Run(Start(dealer, dulle, noSpecials), acts); r.Ok? && Inv(r.state) && Clean(r.state, hands)
  {
    var s := Start(dealer, dulle, noSpecials);
    StartHonest(dealer, dulle, noSpecials, hands);
    hide HonestSoFar, Inv, Start, Clean, ValidDeal, Run, HonestRun, OfferedRun;
    OfferedKeeps(s, hands, acts);
    AuditMeaning(dealer, dulle, noSpecials, hands, acts);
  }

  lemma StartHonest(dealer: Seat, dulle: bool, noSpecials: bool, hands: seq<seq<Card>>)
    requires |hands| == 4 && ValidDeal(hands)
    ensures HonestSoFar(Start(dealer, dulle, noSpecials), hands)
  {
    hide Inv, ValidDeal;
    StartInv(dealer, dulle, noSpecials);
  }

  lemma ClaimStep(s: State, a: Action)
    requires Inv(s) && Claimed(s.claim, s.calls) && Apply(s, a).Ok?
    ensures Claimed(Apply(s, a).state.claim, Apply(s, a).state.calls)
  {
    hide Inv, TalkOk, TableOk, AtMostTwice, Sides, ApplyReserve, ApplyPlay, CallOk, KnownParty;
    SizedInv(s);
    var s' := Apply(s, a).state;
    match a
    case Reserve(seat, v) => ReserveClaims(s, seat, v);
    case Play(seat, card) => SameTalk(s, seat, card);
    case Announce(seat, p, name) =>
      var last := s'.calls[|s.calls|];
      forall x | 0 <= x < |s'.claim| && s'.claim[x].Some?
        ensures exists i :: 0 <= i < |s'.calls| && s'.calls[i].seat == x && s'.calls[i].party == s'.claim[x].value
      {
        if x != seat {
          var i :| 0 <= i < |s.calls| && s.calls[i].seat == x && s.calls[i].party == s.claim[x].value;
          assert s'.calls[i] == s.calls[i];
        }
      }
  }

  lemma SizedInv(s: State)
    requires Inv(s)
    ensures Sized(s)
  {
  }

  lemma ReserveClaims(s: State, seat: int, v: Say)
    requires Sized(s) && 0 <= seat < 4 && ApplyReserve(s, seat, v).Ok?
    ensures var s' := ApplyReserve(s, seat, v).state; s'.claim == s.claim && s'.calls == s.calls
  {
  }

  // ---------- auto ----------

  function SuitLetter(s: Suit): nat { match s case Clubs => 0 case Diamonds => 1 case Hearts => 2 case Spades => 3 }

  function RankLetter(r: Rank): nat {
    match r case Nine => 0 case Ace => 1 case Jack => 2 case King => 3 case Queen => 4 case Ten => 5
  }

  /** Weaker first: lower in the trick's order, then fewer eyes, then the card's name. */
  predicate Weaker(kind: Kind, led: Option<Led>, c: Card, d: Card) {
    var p := Power(kind, c, if led.Some? then led.value else Follows(Trumps(kind), c));
    var q := Power(kind, d, if led.Some? then led.value else Follows(Trumps(kind), d));
    p < q || (p == q && (Eyes(c) < Eyes(d) || (Eyes(c) == Eyes(d) &&
      SuitLetter(c.suit) * 6 + RankLetter(c.rank) < SuitLetter(d.suit) * 6 + RankLetter(d.rank))))
  }

  lemma WeakerChains(kind: Kind, led: Option<Led>, c: Card, d: Card, e: Card)
    requires !Weaker(kind, led, d, c) && !Weaker(kind, led, e, d)
    ensures !Weaker(kind, led, e, c)
  {
    hide Power, Trumps, Follows;
  }

  function WeakestOf(kind: Kind, cards: seq<Card>, led: Option<Led>): (w: Card)
    requires cards != []
    ensures w in cards && forall c :: c in cards ==> !Weaker(kind, led, c, w)
  {
    hide Weaker;
    NotWeakerSelf(kind, led, cards[|cards| - 1]);
    if |cards| == 1 then assert cards == [cards[0]]; cards[0]
    else
      var most, c := cards[..|cards| - 1], cards[|cards| - 1];
      var w := WeakestOf(kind, most, led);
      assert cards == most + [c];
      if Weaker(kind, led, c, w) then
        WeakerThanAll(kind, led, most, w, c); c
      else w
  }

  lemma NotWeakerSelf(kind: Kind, led: Option<Led>, c: Card)
    ensures !Weaker(kind, led, c, c)
  {
  }

  lemma WeakerThanAll(kind: Kind, led: Option<Led>, cards: seq<Card>, w: Card, c: Card)
    requires (forall d :: d in cards ==> !Weaker(kind, led, d, w)) && Weaker(kind, led, c, w)
    ensures forall d :: d in cards ==> !Weaker(kind, led, d, c)
  {
    assert !Weaker(kind, led, w, c) by { hide Power, Trumps, Follows; }
    hide Weaker;
    forall d | d in cards ensures !Weaker(kind, led, d, c) { WeakerChains(kind, led, c, w, d); }
  }

  function TrumpCount(kind: Kind, hand: seq<Card>): nat {
    if hand == [] then 0 else TrumpCount(kind, hand[..|hand| - 1]) + if IsTrump(kind, hand[|hand| - 1]) then 1 else 0
  }

  /** The first of the solos with the most trumps in hand. */
  function BestSolo(hand: seq<Card>, upTo: nat): (k: Kind)
    requires 1 <= upTo <= |SOLOS|
    ensures k in SOLOS && forall i :: 0 <= i < upTo ==> TrumpCount(SOLOS[i], hand) <= TrumpCount(k, hand)
  {
    if upTo == 1 then SOLOS[0]
    else
      var k := BestSolo(hand, upTo - 1);
      if TrumpCount(SOLOS[upTo - 1], hand) > TrumpCount(k, hand) then SOLOS[upTo - 1] else k
  }

  function Auto(s: State, seat: int, hand: seq<Card>): Option<Action>
    requires Sized(s) && 0 <= seat < 4
  {
    if Turn(s) != seat then None
    else if s.phase == Reserving then Some(Reserve(seat, Healthy))
    else if s.phase == Asking then
      Some(Reserve(seat, if Count(hand, CLUB_QUEEN) == 2 then Marriage else SoloOf(BestSolo(hand, |SOLOS|))))
    else
      var cards := LegalCards(Trumps(s.kind), s.cards, hand);
      if cards == [] then None
      else Some(Play(seat, WeakestOf(s.kind, cards, if s.cards == [] then None else Some(LedBy(s.kind, s.cards)))))
  }

  /** The cards among the actions. */
  function CardsIn(acts: seq<Action>): (cards: seq<Card>)
    ensures forall c :: c in cards <==> exists a :: a in acts && a.Play? && a.card == c
  {
    if acts == [] then []
    else
      var most, a := acts[..|acts| - 1], acts[|acts| - 1];
      assert acts == most + [a];
      CardsIn(most) + if a.Play? then [a.card] else []
  }

  /** Which card is the weakest depends only on which cards there are. */
  lemma OneWeakest(kind: Kind, a: seq<Card>, b: seq<Card>, led: Option<Led>)
    requires a != [] && b != [] && forall c :: c in a <==> c in b
    ensures WeakestOf(kind, a, led) == WeakestOf(kind, b, led)
  {
    var v, w := WeakestOf(kind, a, led), WeakestOf(kind, b, led);
    assert !Weaker(kind, led, v, w) && !Weaker(kind, led, w, v);
    SameName(kind, led, v, w);
  }

  lemma SameName(kind: Kind, led: Option<Led>, v: Card, w: Card)
    requires !Weaker(kind, led, v, w) && !Weaker(kind, led, w, v)
    ensures v == w
  {
    hide Power, Trumps, Follows, Eyes;
    NamesDiffer(v, w);
    hide SuitLetter, RankLetter;
  }

  lemma NamesDiffer(v: Card, w: Card)
    requires SuitLetter(v.suit) * 6 + RankLetter(v.rank) == SuitLetter(w.suit) * 6 + RankLetter(w.rank)
    ensures v == w
  {
  }

  /** The move for an absent player, picked from the offered actions. */
  method AutoMove(s: State, seat: int, hand: seq<Card>) returns (a: Option<Action>)
    requires Sized(s) && 0 <= seat < 4
    ensures a == Auto(s, seat, hand)
  {
    hide LegalCards, Trumps, Weaker, CallActions, PlayActions, SoloActions, TrumpCount, Count, CardsIn, LedBy;
    if Turn(s) != seat { return None; }
    var acts := Actions(s, seat, hand);
    if s.phase == Reserving { return Some(acts[0]); }
    if s.phase == Asking {
      if Reserve(seat, Marriage) in acts { return Some(Reserve(seat, Marriage)); }
      var best: Kind, most: int := SOLOS[0], -1;
      for i := 0 to |SOLOS|
        invariant if i == 0 then most == -1 else best == BestSolo(hand, i) && most == TrumpCount(best, hand)
      {
        var n := TrumpCount(SOLOS[i], hand);
        if n > most { best, most := SOLOS[i], n; }
      }
      return Some(Reserve(seat, SoloOf(best)));
    }
    var cards := CardsIn(acts);
    OfferedCards(s, seat, hand);
    if cards == [] { return None; }
    var led := if s.cards == [] then None else Some(LedBy(s.kind, s.cards));
    OneWeakest(s.kind, cards, LegalCards(Trumps(s.kind), s.cards, hand), led);
    return Some(Play(seat, WeakestOf(s.kind, cards, led)));
  }

  lemma OfferedCards(s: State, seat: int, hand: seq<Card>)
    requires Sized(s) && 0 <= seat < 4 && s.phase == Playing && Turn(s) == seat
    ensures var cards, legal := CardsIn(Actions(s, seat, hand)), LegalCards(Trumps(s.kind), s.cards, hand);
      (forall c :: c in cards <==> c in legal) && (cards == [] <==> legal == [])
  {
    hide LegalCards, Trumps, PlayActions, CallActions, CardsIn;
    var acts, legal := Actions(s, seat, hand), LegalCards(Trumps(s.kind), s.cards, hand);
    var cards := CardsIn(acts);
    OnlyCalls(s, seat, hand);
    forall c
      ensures c in cards <==> c in legal
    {
      assert c in legal ==> Play(seat, c) in acts;
    }
    assert (cards != [] ==> cards[0] in cards) && (legal != [] ==> legal[0] in legal);
  }

  lemma OnlyCalls(s: State, seat: int, hand: seq<Card>)
    requires Sized(s) && 0 <= seat < 4
    ensures forall a :: a in CallActions(s, seat, hand) ==> a.Announce?
  {
    hide OwnParty, CallOk;
  }

  lemma TurnSits(s: State)
    requires Inv(s) && s.phase != Finished
    ensures 0 <= Turn(s) < 4
  {
    hide AtMostTwice, Sides, QueueOk, Unclaimed, TrickOk, PlayedOk;
  }

  lemma HandNotEmpty(s: State, hands: seq<seq<Card>>, seat: int)
    requires HonestSoFar(s, hands) && s.phase == Playing && Turn(s) == seat && 0 <= seat < 4
    ensures Left(hands[seat], Plays(s), seat) != []
  {
    hide Trumps, AllLegal, Left, Plays, AtMostTwice, TableOk, Sides, TalkOk, MarriagesTrue, CallsTrue, Count;
    PlayedNumber(s, seat);
    LeftCounts(Trumps(s.kind), hands, Plays(s), seat, CLUB_QUEEN);
  }

  lemma SoloKind(k: Kind)
    requires k in SOLOS
    ensures k != Normal && k != Wedding
  {
  }

  lemma AutoTalks(s: State, hands: seq<seq<Card>>, seat: int)
    requires HonestSoFar(s, hands) && s.phase in {Reserving, Asking} && seat == Turn(s) && 0 <= seat < 4
    ensures var a := Auto(s, seat, Left(hands[seat], Plays(s), seat));
      a.Some? && a.value.seat == seat && Apply(s, a.value).Ok? && Truthful(s, hands, a.value)
  {
    var hand := Left(hands[seat], Plays(s), seat);
    NoneYet(s, hands, seat);
    SoloKind(BestSolo(hand, |SOLOS|));
    hide Left, Plays, Honest, ValidDeal, TalkOk, TableOk, AtMostTwice, Sides, QueueIndex, Count, Begin, BestSolo;
  }

  /** The move made for an absent player is always there, always accepted and always true. */
  lemma AutoIsAccepted(s: State, hands: seq<seq<Card>>)
    requires HonestSoFar(s, hands) && s.phase != Finished
    ensures 0 <= Turn(s) < 4
    ensures var a := Auto(s, Turn(s), Left(hands[Turn(s)], Plays(s), Turn(s)));
      a.Some? && a.value.seat == Turn(s) && Apply(s, a.value).Ok? && Truthful(s, hands, a.value)
  {
    TurnSits(s);
    var seat := Turn(s);
    if s.phase == Playing {
      HandNotEmpty(s, hands, seat);
      var cards := LegalCards(Trumps(s.kind), s.cards, Left(hands[seat], Plays(s), seat));
      var led := if s.cards == [] then None else Some(LedBy(s.kind, s.cards));
      hide Weaker, HonestSoFar, LegalCards, Trumps, Left, Plays, ApplyPlay, Truthful;
      PlayAccepted(s, hands, seat, WeakestOf(s.kind, cards, led));
    } else {
      AutoTalks(s, hands, seat);
    }
  }

  /** Each action is the automatic one at its moment. */
  ghost predicate ByItself(s: State, hands: seq<seq<Card>>, acts: seq<Action>)
    requires |hands| == 4
  {
    forall i :: 0 <= i < |acts| ==> AutoAt(Run(s, acts[..i]), hands, acts[i])
  }

  predicate AutoAt(r: Outcome, hands: seq<seq<Card>>, a: Action)
    requires |hands| == 4
  {
    && r.Ok? && Sized(r.state) && 0 <= Turn(r.state) < 4
    && Auto(r.state, Turn(r.state), Left(hands[Turn(r.state)], Plays(r.state), Turn(r.state))) == Some(a)
  }

  /** The automatic move of the seat on turn. */
  ghost function NextMove(s: State, hands: seq<seq<Card>>): (a: Action)
    requires HonestSoFar(s, hands) && s.phase != Finished
    ensures |hands| == 4 && Sized(s) && AutoAt(Ok(s), hands, a) && Apply(s, a).Ok?
    ensures HonestSoFar(Apply(s, a).state, hands) && 0 <= Ahead(Apply(s, a).state) < Ahead(s)
  {
    SizedInv(s);
    hide HonestSoFar, Apply, Auto, Left, Plays, Truthful, Ahead;
    AutoIsAccepted(s, hands);
    var a := Auto(s, Turn(s), Left(hands[Turn(s)], Plays(s), Turn(s))).value;
    HonestStep(s, hands, a);
    a
  }

  /** From any honest point on, playing for everybody finishes the hand, and honestly. */
  ghost function PlayOut(s: State, hands: seq<seq<Card>>): (acts: seq<Action>)
    requires HonestSoFar(s, hands)
    ensures Run(s, acts).Ok? && HonestSoFar(Run(s, acts).state, hands) && Run(s, acts).state.phase == Finished
    ensures ByItself(s, hands, acts)
    decreases Ahead(s)
  {
    if s.phase == Finished then []
    else
      hide HonestSoFar, Apply, Ahead, Run, ByItself, AutoAt;
      var a := NextMove(s, hands);
      var rest := PlayOut(Apply(s, a).state, hands);
      RunCons(s, a, rest);
      OnItsOwn(s, hands, a, rest);
      [a] + rest
  }

  lemma OnItsOwn(s: State, hands: seq<seq<Card>>, a: Action, rest: seq<Action>)
    requires |hands| == 4 && Sized(s) && AutoAt(Ok(s), hands, a) && Apply(s, a).Ok?
    requires ByItself(Apply(s, a).state, hands, rest)
    ensures ByItself(s, hands, [a] + rest)
  {
    hide AutoAt, Apply;
    var all := [a] + rest;
    forall i | 0 <= i < |all|
      ensures AutoAt(Run(s, all[..i]), hands, all[i])
    {
      if i > 0 {
        assert all[..i] == [a] + rest[..i - 1];
        RunCons(s, a, rest[..i - 1]);
      }
    }
  }

  lemma HonestStep(s: State, hands: seq<seq<Card>>, a: Action)
    requires HonestSoFar(s, hands) && 0 <= a.seat < 4 && Apply(s, a).Ok? && Truthful(s, hands, a)
    ensures HonestSoFar(Apply(s, a).state, hands) && 0 <= Ahead(Apply(s, a).state) < Ahead(s)
  {
    var s' := Apply(s, a).state;
    hide Inv, Honest, Truthful, Apply, ValidDeal, Ahead, Claimed;
    ClaimStep(s, a);
    StepKeeps(s, a);
    StepHonest(s, hands, a);
    StepCosts(s, a);
    AheadNotNegative(s');
  }
}
