/** The public state of a Doppelkopf hand and the one function that changes it. */
module DokoGame {
  import opened Options
  import opened DokoCards
  import opened DokoRules

  datatype Phase = Reserving | Asking | Playing | Finished
  datatype Party = Re | Kontra
  datatype Say = Unsaid | Healthy | Reservation | Marriage | SoloOf(kind: Kind)
  datatype CallName = SayRe | SayKontra | K90 | K60 | K30 | Black

  datatype Trick = Trick(lead: int, cards: seq<Played>, winner: int, eyes: nat)
  datatype Call = Call(seat: int, party: Party, name: CallName, played: nat)
  datatype State = State(
    dulle: bool, noSpecials: bool, dealer: int, phase: Phase, ask: int, say: seq<Say>, queue: seq<int>, wedding: int,
    kind: Kind, soloist: int, partner: int, clar: nat, lead: int, cards: seq<Played>, tricks: seq<Trick>,
      played: seq<nat>,
    re: int, kontra: int, claim: seq<Option<Party>>, calls: seq<Call>)

  datatype Action =
    | Reserve(seat: int, v: Say)
    | Play(seat: int, card: Card)
    | Announce(seat: int, party: Party, name: CallName)

  datatype Err = BadFormat | NotTurn | BadValue | BadPhase | BadCard | BadParty | TooLate
  datatype Outcome = Ok(state: State) | Fail(err: Err)

  function Next(seat: int, n: int): (r: int)
    ensures 0 <= r < 4
    ensures 0 <= seat < 4 && 0 <= n < 4 ==> r == if seat + n < 4 then seat + n else seat + n - 4
  {
    (seat + n) % 4
  }

  /** A place at the table. */
  type Seat = x: int | 0 <= x < 4

  /** The start of a hand whose dealer sits at the table. */
  function Start(dealer: Seat, dulle: bool, noSpecials: bool): State {
    State(dulle, noSpecials, dealer, Reserving, Next(dealer, 1), [Unsaid, Unsaid, Unsaid, Unsaid], [], -1,
          Normal, -1, -1, 0, Next(dealer, 1), [], [], [0, 0, 0, 0], -1, -1, [None, None, None, None], [])
  }

  predicate Sized(s: State) { |s.say| == 4 && |s.played| == 4 && |s.claim| == 4 && |s.cards| < 4 }

  function Turn(s: State): int {
    match s.phase
    case Reserving => s.ask
    case Asking => s.ask
    case Playing => Next(s.lead, |s.cards|)
    case Finished => -1
  }

  function Begin(s: State, kind: Kind, soloist: int): State {
    s.(phase := Playing, kind := kind, soloist := soloist, lead := Next(s.dealer, 1), cards := [])
  }

  function KnownParty(s: State, seat: int): Option<Party>
    requires Sized(s) && 0 <= seat < 4
  {
    if s.kind == Normal then s.claim[seat]
    else if s.kind == Wedding && s.partner < 0 then (if seat == s.soloist then Some(Re) else None)
    else if s.kind == Wedding then (if seat == s.soloist || seat == s.partner then Some(Re) else Some(Kontra))
    else if seat == s.soloist then Some(Re) else Some(Kontra)
  }

  function Opp(p: Party): Party { if p == Re then Kontra else Re }

  function Level(s: State, p: Party): int { if p == Re then s.re else s.kontra }

  const NEED: seq<int> := [11, 10, 9, 8, 7]

  function Min(a: int, b: int): int { if a < b then a else b }

  predicate CallOk(s: State, seat: int, p: Party, lvl: int)
    requires Sized(s) && 0 <= seat < 4
  {
    && s.phase == Playing && 0 <= lvl <= 4
    && !(s.kind == Wedding && s.partner < 0)
    && lvl > Level(s, p)
    && var shift := if s.clar > 1 then s.clar - 1 else 0;
       var need := NEED[lvl] - shift;
       var other := Level(s, Opp(p));
       HAND - s.played[seat] >= if lvl == 0 && 0 <= other <= 4 then Min(need, NEED[other] - shift - 1) else need
  }

  // ---------- one action ----------

  function QueueIndex(q: seq<int>, seat: int): (i: int)
    ensures -1 <= i < |q| && (i >= 0 ==> q[i] == seat) && (i < 0 ==> seat !in q)
  {
    if q == [] then -1 else if q[0] == seat then 0 else var i := QueueIndex(q[1..], seat); if i < 0 then -1 else i + 1
  }

  function ApplyReserve(s: State, seat: int, v: Say): Outcome
    requires Sized(s) && 0 <= seat < 4
  {
    if (s.phase != Reserving && s.phase != Asking) || s.ask != seat then Fail(NotTurn)
    else if s.phase == Reserving then
      if v != Healthy && v != Reservation then Fail(BadValue)
      else
        var s1 := s.(say := s.say[seat := v], queue := if v == Reservation then s.queue + [seat] else s.queue);
        if seat != s.dealer then Ok(s1.(ask := Next(seat, 1)))
        else if s1.queue == [] then Ok(Begin(s1, Normal, -1))
        else Ok(s1.(phase := Asking, ask := s1.queue[0]))
    else if v.SoloOf? && v.kind != Normal && v.kind != Wedding then
      Ok(Begin(s.(say := s.say[seat := v]), v.kind, seat))
    else if v == Marriage then
      var s1 := s.(say := s.say[seat := v], wedding := if s.wedding < 0 then seat else s.wedding);
      var i := QueueIndex(s.queue, seat);
      if i + 1 < |s.queue| then Ok(s1.(ask := s.queue[i + 1]))
      else Ok(Begin(s1, Wedding, s1.wedding))
    else Fail(BadValue)
  }

  function CardsOf(ps: seq<Played>): (cs: seq<Card>)
    ensures |cs| == |ps| && forall i :: 0 <= i < |ps| ==> cs[i] == ps[i].card
  {
    seq(|ps|, i requires 0 <= i < |ps| => ps[i].card)
  }

  /** Every card played in the finished tricks, in order. */
  function Flat(tricks: seq<Trick>): seq<Played> {
    if tricks == [] then [] else Flat(tricks[..|tricks| - 1]) + tricks[|tricks| - 1].cards
  }

  function Plays(s: State): seq<Played> { Flat(s.tricks) + s.cards }

  function TrickWinner(s: State, cards: seq<Played>): int
    requires |cards| > 0
  {
    cards[BestIndex(s.kind, cards, |cards|, s.dulle)].seat
  }

  /** A full trick is put away; a marriage may find its partner or turn into a Karo solo. */
  function CloseTrick(s: State, cards: seq<Played>): State
    requires |cards| > 0
  {
    var w := TrickWinner(s, cards);
    var n := |s.tricks| + 1;
    var s1 := s.(tricks := s.tricks + [Trick(s.lead, cards, w, EyeSum(CardsOf(cards)))], lead := w, cards := [],
                 phase := if n == HAND then Finished else s.phase);
    if s.kind == Wedding && s.partner < 0 then
      if w != s.soloist then s1.(partner := w, clar := n)
      else if n == 3 then s1.(kind := Karo, clar := 3, wedding := s.soloist)
      else s1
    else s1
  }

  function ApplyPlay(s: State, seat: int, card: Card): Outcome
    requires Sized(s) && 0 <= seat < 4
  {
    if s.phase != Playing then Fail(BadPhase)
    else if Turn(s) != seat then Fail(NotTurn)
    else if Count(CardsOf(Plays(s)), card) >= 2 then Fail(BadCard)
    else
      var s1 := s.(played := s.played[seat := s.played[seat] + 1]);
      var cards := s.cards + [Played(seat, card)];
      if |cards| < 4 then Ok(s1.(cards := cards)) else Ok(CloseTrick(s1, cards))
  }

  /** The level a call names for a party, -1 when it is not that party's call. */
  function LevelOf(p: Party, name: CallName): int {
    match name
    case SayRe => if p == Re then 0 else -1
    case SayKontra => if p == Kontra then 0 else -1
    case K90 => 1
    case K60 => 2
    case K30 => 3
    case Black => 4
  }

  function ApplyCall(s: State, seat: int, p: Party, name: CallName): Outcome
    requires Sized(s) && 0 <= seat < 4
  {
    var lvl := LevelOf(p, name);
    var known := KnownParty(s, seat);
    if lvl < 0 then Fail(BadFormat)
    else if known.Some? && known.value != p then Fail(BadParty)
    else if !CallOk(s, seat, p, lvl) then Fail(TooLate)
    else Ok(s.(re := if p == Re then lvl else s.re, kontra := if p == Kontra then lvl else s.kontra,
               claim := s.claim[seat := Some(p)], calls := s.calls + [Call(seat, p, name, s.played[seat])]))
  }

  function Apply(s: State, a: Action): Outcome
    requires Sized(s)
  {
    if !(0 <= a.seat < 4) then Fail(BadFormat)
    else match a
      case Reserve(seat, v) => ApplyReserve(s, seat, v)
      case Play(seat, card) => ApplyPlay(s, seat, card)
      case Announce(seat, p, name) => ApplyCall(s, seat, p, name)
  }

  // ---------- what every accepted action keeps ----------

  /** How many seats are between two, going round the table. */
  function Behind(lead: int, seat: int): int { if seat >= lead then seat - lead else seat + 4 - lead }

  /** The seats speak in this order. */
  function Place(dealer: int, seat: int): int { Behind(Next(dealer, 1), seat) }

  predicate QueueOk(dealer: int, queue: seq<int>) {
    && (forall i :: 0 <= i < |queue| ==> 0 <= queue[i] < 4)
    && (forall i, j :: 0 <= i < j < |queue| ==> Place(dealer, queue[i]) < Place(dealer, queue[j]))
  }

  /** Nobody who is still to be asked has claimed a marriage. */
  predicate Unclaimed(dealer: int, say: seq<Say>, from: int)
    requires |say| == 4
  {
    forall x :: 0 <= x < 4 && Place(dealer, x) >= from ==> say[x] != Marriage
  }

  predicate TalkOk(phase: Phase, dealer: int, ask: int, say: seq<Say>, queue: seq<int>)
    requires |say| == 4
  {
    && 0 <= dealer < 4 && QueueOk(dealer, queue)
    && (phase == Reserving ==>
          && 0 <= ask < 4 && Unclaimed(dealer, say, 0)
          && forall i :: 0 <= i < |queue| ==> Place(dealer, queue[i]) < Place(dealer, ask))
    && (phase == Asking ==> 0 <= ask < 4 && ask in queue && Unclaimed(dealer, say, Place(dealer, ask)))
  }

  predicate InOrder(lead: int, cards: seq<Played>) {
    0 <= lead < 4 && forall i :: 0 <= i < |cards| ==> cards[i].seat == Next(lead, i)
  }

  predicate TrickOk(t: Trick) {
    InOrder(t.lead, t.cards) && |t.cards| == 4 && 0 <= t.winner < 4 && t.eyes == EyeSum(CardsOf(t.cards))
  }

  /** Everyone has played to every finished trick, and those before the seat on turn to the open one. */
  predicate PlayedOk(lead: int, n: nat, played: seq<nat>, tricks: nat)
    requires |played| == 4
  {
    forall x :: 0 <= x < 4 ==> played[x] == tricks + if Behind(lead, x) < n then 1 else 0
  }

  predicate TableOk(phase: Phase, lead: int, cards: seq<Played>, tricks: seq<Trick>, played: seq<nat>)
    requires |played| == 4
  {
    && InOrder(lead, cards) && |cards| < 4
    && (forall k :: 0 <= k < |tricks| ==> TrickOk(tricks[k]))
    && PlayedOk(lead, |cards|, played, |tricks|)
    && (phase in {Reserving, Asking} ==> tricks == [] && cards == [])
    && (phase == Playing ==> |tricks| < HAND)
    && (phase == Finished ==> |tricks| == HAND && cards == [])
  }

  ghost predicate AtMostTwice(ps: seq<Played>) { forall c :: Count(CardsOf(ps), c) <= 2 }

  predicate Sides(s: State) {
    && -1 <= s.re <= 4 && -1 <= s.kontra <= 4
    && (s.kind != Normal ==> 0 <= s.soloist < 4)
    && (s.kind == Wedding ==> -1 <= s.partner < 4 && s.partner != s.soloist && (s.partner < 0 ==> |s.tricks| < 3))
    && (s.phase in {Reserving, Asking} ==> s.kind == Normal && s.partner == -1 && s.calls == [])
    && (s.kind == Wedding && s.partner < 0 ==> s.calls == [])
    && (forall i :: 0 <= i < |s.calls| ==> 0 <= s.calls[i].seat < 4)
    && (s.kind != Normal ==> forall i :: 0 <= i < |s.calls| ==> CallKnown(s.kind, s.soloist, s.partner, s.calls[i]))
  }

  /** The call names the party that the solo or the marriage gives the seat. */
  predicate CallKnown(kind: Kind, soloist: int, partner: int, c: Call) {
    c.party == Re <==> c.seat == soloist || (kind == Wedding && c.seat == partner)
  }

  ghost predicate Inv(s: State) {
    && Sized(s)
    && TalkOk(s.phase, s.dealer, s.ask, s.say, s.queue) && -1 <= s.wedding < 4
    && TableOk(s.phase, s.lead, s.cards, s.tricks, s.played)
    && AtMostTwice(Plays(s)) && Sides(s)
  }

  lemma StartInv(dealer: Seat, dulle: bool, noSpecials: bool)
    ensures Inv(Start(dealer, dulle, noSpecials))
  {
    hide TalkOk, AtMostTwice, Sides;
    StartTalk(dealer, dulle, noSpecials);
    StartCards(dealer, dulle, noSpecials);
  }

  lemma StartTalk(dealer: Seat, dulle: bool, noSpecials: bool)
    ensures var s := Start(dealer, dulle, noSpecials); TalkOk(s.phase, s.dealer, s.ask, s.say, s.queue)
  {
  }

  lemma StartCards(dealer: Seat, dulle: bool, noSpecials: bool)
    ensures var s := Start(dealer, dulle, noSpecials); AtMostTwice(Plays(s)) && Sides(s)
  {
  }

  // ---------- reservations ----------

  lemma SpokenQueue(dealer: int, ask: int, queue: seq<int>)
    requires 0 <= ask < 4 && QueueOk(dealer, queue) && forall i ::
      0 <= i < |queue| ==> Place(dealer, queue[i]) < Place(dealer, ask)
    ensures QueueOk(dealer, queue + [ask])
  {
    hide Place;
  }

  lemma NextPlace(dealer: int, ask: int)
    requires 0 <= dealer < 4 && 0 <= ask < 4
    ensures ask != dealer ==> Place(dealer, Next(ask, 1)) == Place(dealer, ask) + 1
    ensures 0 <= Place(dealer, ask) < 4
  {
  }

  lemma SpokenNext(dealer: int, ask: int, say: seq<Say>, queue: seq<int>, q: seq<int>, v: Say)
    requires |say| == 4 && TalkOk(Reserving, dealer, ask, say, queue) && v != Marriage && ask != dealer
    requires QueueOk(dealer, q) && forall i :: 0 <= i < |q| ==> Place(dealer, q[i]) <= Place(dealer, ask)
    ensures TalkOk(Reserving, dealer, Next(ask, 1), say[ask := v], q)
  {
    NextPlace(dealer, ask);
    hide QueueOk, Place;
  }

  lemma SpokenLast(dealer: int, ask: int, say: seq<Say>, queue: seq<int>, q: seq<int>, v: Say)
    requires |say| == 4 && TalkOk(Reserving, dealer, ask, say, queue) && v != Marriage && QueueOk(dealer, q)
    ensures if q == [] then TalkOk(Playing, dealer, ask, say[ask := v], q)
      else TalkOk(Asking, dealer, q[0], say[ask := v], q)
  {
    assert forall x :: 0 <= x < 4 ==> 0 <= Place(dealer, x);
    assert forall x :: 0 <= x < 4 ==> say[x] != Marriage;
    QueueSeats(dealer, q);
    hide QueueOk, Place;
  }

  lemma SpokenTalk(dealer: int, ask: int, say: seq<Say>, queue: seq<int>, v: Say)
    requires |say| == 4 && TalkOk(Reserving, dealer, ask, say, queue) && (v == Healthy || v == Reservation)
    ensures var q := if v == Reservation then queue + [ask] else queue;
      && (ask != dealer ==> TalkOk(Reserving, dealer, Next(ask, 1), say[ask := v], q))
      && (q != [] ==> TalkOk(Asking, dealer, q[0], say[ask := v], q))
      && (q == [] ==> TalkOk(Playing, dealer, ask, say[ask := v], q))
  {
    hide QueueOk, Place, Unclaimed;
    SpokenQueue(dealer, ask, queue);
    var q := if v == Reservation then queue + [ask] else queue;
    SpokenLast(dealer, ask, say, queue, q, v);
    if ask != dealer { SpokenNext(dealer, ask, say, queue, q, v); }
  }

  lemma QueueSeats(dealer: int, queue: seq<int>)
    requires QueueOk(dealer, queue)
    ensures forall i :: 0 <= i < |queue| ==> 0 <= queue[i] < 4
  {
  }

  lemma ClaimedTalk(dealer: int, ask: int, say: seq<Say>, queue: seq<int>, v: Say)
    requires |say| == 4 && TalkOk(Asking, dealer, ask, say, queue)
    ensures var i := QueueIndex(queue, ask);
      && 0 <= i
      && (i + 1 < |queue| ==> TalkOk(Asking, dealer, queue[i + 1], say[ask := v], queue))
      && TalkOk(Playing, dealer, ask, say[ask := v], queue)
  {
    var i := QueueIndex(queue, ask);
    if i + 1 < |queue| { assert Place(dealer, queue[i]) < Place(dealer, queue[i + 1]); }
  }

  /** A reservation leaves the table as it is: empty, everyone with all their cards. */
  lemma ReserveFrame(s: State, seat: int, v: Say)
    requires Inv(s) && 0 <= seat < 4 && ApplyReserve(s, seat, v).Ok?
    ensures var s' := ApplyReserve(s, seat, v).state;
      && Sized(s') && s'.tricks == s.tricks == [] && s'.cards == s.cards == [] && s'.played == s.played
      && s'.phase != Finished && s'.dealer == s.dealer && s'.say == s.say[seat := v]
      && s'.re == s.re && s'.kontra == s.kontra && s'.calls == s.calls == []
  {
    hide QueueIndex, Unclaimed, QueueOk, AtMostTwice;
  }

  lemma ReserveTable(s: State, seat: int, v: Say)
    requires Inv(s) && 0 <= seat < 4 && ApplyReserve(s, seat, v).Ok?
    ensures var s' := ApplyReserve(s, seat, v).state;
      TableOk(s'.phase, s'.lead, s'.cards, s'.tricks, s'.played) && AtMostTwice(Plays(s'))
        && s.phase in {Reserving, Asking}
  {
    ReserveFrame(s, seat, v);
    hide QueueIndex, Unclaimed, QueueOk;
  }

  lemma ReserveSides(s: State, seat: int, v: Say)
    requires Inv(s) && 0 <= seat < 4 && ApplyReserve(s, seat, v).Ok?
    ensures Sides(ApplyReserve(s, seat, v).state) && -1 <= ApplyReserve(s, seat, v).state.wedding < 4
  {
    hide QueueIndex, Unclaimed, QueueOk, AtMostTwice, PlayedOk;
  }

  lemma ReserveTalk(s: State, seat: int, v: Say)
    requires Inv(s) && 0 <= seat < 4 && ApplyReserve(s, seat, v).Ok?
    ensures var s' := ApplyReserve(s, seat, v).state; TalkOk(s'.phase, s'.dealer, s'.ask, s'.say, s'.queue)
  {
    hide Sides, TableOk, AtMostTwice, QueueIndex, Unclaimed, QueueOk, Place;
    if s.phase == Reserving {
      SpokenTalk(s.dealer, s.ask, s.say, s.queue, v);
    } else {
      ClaimedTalk(s.dealer, s.ask, s.say, s.queue, v);
    }
  }

  // ---------- cards ----------

  lemma FlatSnoc(tricks: seq<Trick>, t: Trick)
    ensures Flat(tricks + [t]) == Flat(tricks) + t.cards
  {
    assert (tricks + [t])[..|tricks|] == tricks;
  }

  /** What a play does to the table. */
  lemma PlayFrame(s: State, seat: int, card: Card)
    requires Sized(s) && 0 <= seat < 4 && ApplyPlay(s, seat, card).Ok?
    ensures var s', cards := ApplyPlay(s, seat, card).state, s.cards + [Played(seat, card)];
      && s'.played == s.played[seat := s.played[seat] + 1] && s.phase == Playing && seat == Next(s.lead, |s.cards|)
      && (|cards| < 4 ==>
            && s'.cards == cards && s'.tricks == s.tricks && s'.lead == s.lead && s'.phase == Playing
            && s'.kind == s.kind)
      && (|cards| == 4 ==>
            && s'.tricks == s.tricks + [Trick(s.lead, cards, TrickWinner(s, cards), EyeSum(CardsOf(cards)))]
               && s'.cards == []
            && s'.lead == TrickWinner(s, cards) && s'.phase == if |s.tricks| + 1 == HAND then Finished else Playing)
  {
    hide Count, BestIndex, EyeSum, Plays;
  }

  lemma PlaySeen(s: State, seat: int, card: Card)
    requires Sized(s) && 0 <= seat < 4 && ApplyPlay(s, seat, card).Ok?
    ensures Plays(ApplyPlay(s, seat, card).state) == Plays(s) + [Played(seat, card)]
  {
    PlayFrame(s, seat, card);
    hide Count, ApplyPlay, TrickWinner, EyeSum;
    var s', cards := ApplyPlay(s, seat, card).state, s.cards + [Played(seat, card)];
    if |cards| == 4 {
      FlatSnoc(s.tricks, s'.tricks[|s.tricks|]);
    }
    assert Flat(s.tricks) + cards == Flat(s.tricks) + s.cards + [Played(seat, card)];
  }

  lemma PlayCounts(s: State, seat: int, card: Card)
    requires Sized(s) && 0 <= seat < 4 && ApplyPlay(s, seat, card).Ok? && AtMostTwice(Plays(s))
    ensures AtMostTwice(Plays(ApplyPlay(s, seat, card).state))
  {
    assert Count(CardsOf(Plays(s)), card) < 2;
    PlaySeen(s, seat, card);
    hide ApplyPlay, Plays;
    var ps := Plays(s);
    assert CardsOf(ps + [Played(seat, card)]) == CardsOf(ps) + [card];
    forall c ensures Count(CardsOf(ps) + [card], c) <= 2 { CountSnoc(CardsOf(ps), card, c); }
  }

  lemma WinnerSits(s: State, cards: seq<Played>)
    requires |cards| == 4 && InOrder(s.lead, cards)
    ensures 0 <= TrickWinner(s, cards) < 4
  {
  }

  lemma NextPlayed(lead: int, n: nat, played: seq<nat>, tricks: nat, w: int)
    requires 0 <= w < 4 && |played| == 4 && 0 <= lead < 4 && n < 4 && PlayedOk(lead, n, played, tricks)
    ensures var p := played[Next(lead, n) := played[Next(lead, n)] + 1];
      PlayedOk(lead, n + 1, p, tricks) && (n == 3 ==> PlayedOk(w, 0, p, tricks + 1))
  {
  }

  lemma TableGrows(lead: int, cards: seq<Played>, tricks: seq<Trick>, played: seq<nat>, x: Played)
    requires |played| == 4 && TableOk(Playing, lead, cards, tricks, played) && |cards| < 3
    requires x.seat == Next(lead, |cards|)
    ensures TableOk(Playing, lead, cards + [x], tricks, played[x.seat := played[x.seat] + 1])
  {
    NextPlayed(lead, |cards|, played, |tricks|, 0);
    hide PlayedOk, TrickOk;
  }

  lemma TableCloses(lead: int, cards: seq<Played>, tricks: seq<Trick>, played: seq<nat>, x: Played, w: int)
    requires |played| == 4 && TableOk(Playing, lead, cards, tricks, played) && |cards| == 3 && x.seat == Next(lead, 3)
    requires 0 <= w < 4
    ensures TableOk(if |tricks| + 1 == HAND then Finished else Playing, w, [],
                    tricks + [Trick(lead, cards + [x], w, EyeSum(CardsOf(cards + [x])))],
                      played[x.seat := played[x.seat] + 1])
  {
    NextPlayed(lead, |cards|, played, |tricks|, w);
    assert TrickOk(Trick(lead, cards + [x], w, EyeSum(CardsOf(cards + [x]))));
    hide PlayedOk, TrickOk;
  }

  lemma PlayTable(s: State, seat: int, card: Card)
    requires Sized(s) && TableOk(s.phase, s.lead, s.cards, s.tricks, s.played) && 0 <= seat < 4
    requires ApplyPlay(s, seat, card).Ok?
    ensures var s' := ApplyPlay(s, seat, card).state;
      Sized(s') && TableOk(s'.phase, s'.lead, s'.cards, s'.tricks, s'.played)
  {
    hide ApplyPlay, TrickWinner, EyeSum, PlayedOk, TrickOk, Trumps;
    PlayFrame(s, seat, card);
    SameTalk(s, seat, card);
    if |s.cards| < 3 {
      TableGrows(s.lead, s.cards, s.tricks, s.played, Played(seat, card));
    } else {
      WinnerSits(s, s.cards + [Played(seat, card)]);
      TableCloses(s.lead, s.cards, s.tricks, s.played, Played(seat, card),
        TrickWinner(s, s.cards + [Played(seat, card)]));
    }
  }

  lemma PlaySides(s: State, seat: int, card: Card)
    requires Sized(s) && TableOk(s.phase, s.lead, s.cards, s.tricks, s.played) && Sides(s) && 0 <= seat < 4
    requires ApplyPlay(s, seat, card).Ok?
    ensures Sides(ApplyPlay(s, seat, card).state)
  {
    hide TrickWinner, EyeSum, PlayedOk, CallKnown, TrickOk, ApplyPlay, Trumps;
    var cards := s.cards + [Played(seat, card)];
    PlayFrame(s, seat, card);
    assert InOrder(s.lead, cards);
    if |cards| == 4 { WinnerSits(s, cards); }
    hide InOrder;
    SameTalk(s, seat, card);
    PartnerFound(s, seat, card);
  }

  lemma PartnerFound(s: State, seat: int, card: Card)
    requires Sized(s) && 0 <= seat < 4 && ApplyPlay(s, seat, card).Ok?
    ensures var s', cards := ApplyPlay(s, seat, card).state, s.cards + [Played(seat, card)];
      if |cards| < 4 || s.kind != Wedding || s.partner >= 0 then s'.kind == s.kind && s'.partner == s.partner
      else if TrickWinner(s, cards) != s.soloist then s'.kind == s.kind && s'.partner == TrickWinner(s, cards)
      else s'.partner == s.partner && s'.kind == if |s.tricks| == 2 then Karo else s.kind
  {
    hide BestIndex, EyeSum, Count, Plays;
  }

  /** What a card never changes: reservations and calls, and the trumps even when a marriage fails. */
  predicate SameTalkAs(s: State, s': State) {
    && s'.dealer == s.dealer && s'.say == s.say && s'.queue == s.queue && s'.claim == s.claim && s'.calls == s.calls
    && s'.re == s.re && s'.kontra == s.kontra && s'.soloist == s.soloist
    && (s'.wedding == s.wedding || (s.kind != Normal && s'.wedding == s.soloist))
    && Trumps(s'.kind) == Trumps(s.kind) && (s'.kind == Normal <==> s.kind == Normal)
    && (s'.kind != s.kind ==> s.kind == Wedding)
  }

  lemma SameTrumps()
    ensures Trumps(Wedding) == Trumps(Karo)
  {
  }

  lemma ClosedTalk(s: State, cards: seq<Played>)
    requires |cards| > 0 && s.phase == Playing
    ensures var s' := CloseTrick(s, cards);
      SameTalkAs(s, s') && s'.phase in {Playing, Finished} && s'.played == s.played && s'.cards == []
  {
    hide TrickWinner, EyeSum, Trumps;
    SameTrumps();
  }

  /** A play says nothing: the reservations stay. */
  lemma SameTalk(s: State, seat: int, card: Card)
    requires Sized(s) && 0 <= seat < 4 && ApplyPlay(s, seat, card).Ok?
    ensures var s' := ApplyPlay(s, seat, card).state;
      SameTalkAs(s, s') && Sized(s') && s'.phase in {Playing, Finished}
  {
    hide CloseTrick, Count, Trumps, Plays;
    var cards := s.cards + [Played(seat, card)];
    if |cards| == 4 { ClosedTalk(s.(played := s.played[seat := s.played[seat] + 1]), cards); }
  }

  lemma CallKeeps(s: State, seat: int, p: Party, name: CallName)
    requires Inv(s) && 0 <= seat < 4 && ApplyCall(s, seat, p, name).Ok?
    ensures Inv(ApplyCall(s, seat, p, name).state)
  {
    hide AtMostTwice, Flat, TalkOk, TableOk;
  }

  /** Every accepted action keeps the invariant. */
  lemma StepKeeps(s: State, a: Action)
    requires Inv(s) && Apply(s, a).Ok?
    ensures Inv(Apply(s, a).state)
  {
    hide Sides, AtMostTwice, ApplyReserve, ApplyPlay, ApplyCall, Plays;
    hide QueueOk, Unclaimed, InOrder, PlayedOk, TrickOk, Trumps;
    match a
    case Reserve(seat, v) =>
      ReserveTalk(s, seat, v);
      ReserveTable(s, seat, v);
      ReserveSides(s, seat, v);
      ReserveFrame(s, seat, v);
    case Play(seat, card) =>
      SoloistSits(s);
      PlayTable(s, seat, card);
      PlaySides(s, seat, card);
      SameTalk(s, seat, card);
      PlayCounts(s, seat, card);
    case Announce(seat, p, name) => CallKeeps(s, seat, p, name);
  }

  lemma SoloistSits(s: State)
    requires Sides(s)
    ensures s.kind != Normal ==> 0 <= s.soloist < 4
  {
  }
}
