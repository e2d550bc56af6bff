/** Bauernskat: the open stacks, what may be played, and the one function that changes the state. */
module BauernskatRules {
  import opened Options

  datatype Suit = Clubs | Spades | Hearts | Diamonds
  datatype Rank = Ace | Ten | King | Queen | Jack | Nine | Eight | Seven
  datatype Card = Card(suit: Suit, rank: Rank)
  datatype Game = SuitGame(suit: Suit) | Grand | NullGame

  // ---------- cards in a contract ----------

  predicate IsTrump(g: Game, c: Card) { !g.NullGame? && (c.rank == Jack || (g.SuitGame? && c.suit == g.suit)) }

  datatype Led = TrumpLed | SuitLed(suit: Suit)

  function SuitOf(g: Game, c: Card): Led { if IsTrump(g, c) then TrumpLed else SuitLed(c.suit) }

  function JackOrder(s: Suit): int { match s case Clubs => 0 case Spades => 1 case Hearts => 2 case Diamonds => 3 }
  function PlainOrder(r: Rank): int {
    match r
    case Ace => 0 case Ten => 1 case King => 2 case Queen => 3
    case Nine => 4 case Eight => 5 case Seven => 6 case Jack => -1
  }
  function NullOrder(r: Rank): int {
    match r
    case Ace => 0 case King => 1 case Queen => 2
    case Jack => 3 case Ten => 4 case Nine => 5 case Eight => 6 case Seven => 7
  }

  function Power(g: Game, c: Card, led: Led): int {
    if IsTrump(g, c) then 100 - (if c.rank == Jack then JackOrder(c.suit) else 4 + PlainOrder(c.rank))
    else if SuitLed(c.suit) != led then -1
    else 50 - if g.NullGame? then NullOrder(c.rank) else PlainOrder(c.rank)
  }

  datatype Play = Play(seat: int, card: Card)
  datatype Trick = Trick(lead: int, cards: seq<Play>, winner: int)

  /** The second card takes the trick only when it is stronger. */
  function TrickWinner(g: Game, cards: seq<Play>): int
    requires |cards| == 2
  {
    var led := SuitOf(g, cards[0].card);
    if Power(g, cards[1].card, led) > Power(g, cards[0].card, led) then cards[1].seat else cards[0].seat
  }

  predicate MayPlay(g: Game, avail: seq<Card>, c: Card, trick: seq<Play>) {
    && c in avail
    && (trick == [] || SuitOf(g, c) == SuitOf(g, trick[0].card) || forall d :: d in avail ==>
       SuitOf(g, d) != SuitOf(g, trick[0].card))
  }

  // ---------- the table: sixteen stacks, eight for each seat ----------

  /** The card one sees on a stack, and whether its face-down card still lies there. */
  datatype Stack = Stack(top: Option<Card>, under: bool)

  datatype Phase = Dealing | Declaring | Playing | Done

  datatype State = State(nullRule: bool, kontraRule: bool, kontra: nat, dealer: int, phase: Phase, declarer: int,
      contract: Option<Game>,
    stacks: seq<Stack>, flip: seq<nat>, trick: seq<Play>, lead: int, tricks: seq<Trick>, next: int)

  datatype Action =
    | TurnUp(seat: int, i: int, card: Card)
    | Kontra(seat: int)
    | Re(seat: int)
    | Declare(seat: int, game: Game)
    | PlayCard(seat: int, card: Card)

  datatype Err = BadAction | IsDone | BadTurn | BadKontra | NotTurn | BadGame | MustFlip | BadCard | MustFollow
  datatype Outcome = Ok(state: State) | Fail(err: Err)

  function Start(dealer: int, nullRule: bool, kontraRule: bool): State {
    var d := dealer % 2;
    State(nullRule, kontraRule, 0, d, Dealing, (d + 1) % 2, None, seq(16, _ => Stack(None, true)), [], [], -1, [], -1)
  }

  function TopsUpTo(stacks: seq<Stack>, from: nat, end: nat): (r: seq<Card>)
    requires from <= end <= |stacks|
    ensures forall c :: c in r <==> exists p :: from <= p < end && stacks[p].top == Some(c)
  {
    if end == from then []
    else
      var most, t := TopsUpTo(stacks, from, end - 1), stacks[end - 1].top;
      if t.Some? then
        assert forall c :: (exists p :: from <= p < end && stacks[p].top == Some(c)) ==> c in most || c == t.value;
        most + [t.value]
      else most
  }

  /** The cards a seat sees on its own stacks, from left to right. */
  function Tops(stacks: seq<Stack>, seat: int): (r: seq<Card>)
    requires |stacks| == 16 && 0 <= seat < 2
  {
    TopsUpTo(stacks, 8 * seat, 8 * seat + 8)
  }

  function Flat(tricks: seq<Trick>): seq<Play> {
    if tricks == [] then [] else Flat(tricks[..|tricks| - 1]) + tricks[|tricks| - 1].cards
  }

  function Plays(s: State): seq<Play> { Flat(s.tricks) + s.trick }

  predicate WasPlayed(ps: seq<Play>, c: Card) { exists k :: 0 <= k < |ps| && ps[k].card == c }

  predicate Visible(stacks: seq<Stack>, c: Card) { exists p :: 0 <= p < |stacks| && stacks[p].top == Some(c) }

  function NumberBy(ps: seq<Play>, seat: int): nat {
    if ps == [] then 0 else NumberBy(ps[..|ps| - 1], seat) + if ps[|ps| - 1].seat == seat then 1 else 0
  }

  function Turn(s: State): int { match s.phase case Declaring => s.declarer case Playing => s.next case _ => -1 }

  predicate KontraOk(s: State, seat: int, re: bool) {
    && s.kontraRule && s.phase == Playing && s.contract.Some?
    && if re then s.kontra == 1 && seat == s.declarer && NumberBy(Plays(s), seat) <= 1
       else s.kontra == 0 && seat != s.declarer && NumberBy(Plays(s), seat) == 0
  }

  function ApplyTurnUp(s: State, seat: int, i: int, c: Card): Outcome
    requires |s.stacks| == 16 && 0 <= seat < 2
  {
    if !(0 <= i < 8) || Visible(s.stacks, c) || WasPlayed(Plays(s), c) then Fail(BadTurn)
    else
      var p := 8 * seat + i;
      if s.phase == Dealing then
        if s.stacks[p].top.Some? then Fail(BadTurn)
        else
          var stacks := s.stacks[p := s.stacks[p].(top := Some(c))];
          Ok(s.(stacks := stacks, phase := if forall q :: 0 <= q < 16 ==> stacks[q].top.Some? then Declaring
            else Dealing))
      else if s.phase != Playing || p !in s.flip then Fail(BadTurn)
      else Ok(s.(flip := Dropped(s.flip, p), stacks := s.stacks[p := Stack(Some(c), false)]))
  }

  /** The list without its last p. */
  function Dropped(flip: seq<nat>, p: nat): (r: seq<nat>)
    requires p in flip
    ensures |r| == |flip| - 1
  {
    if flip[|flip| - 1] == p then flip[..|flip| - 1]
    else
      assert flip == flip[..|flip| - 1] + [flip[|flip| - 1]];
      Dropped(flip[..|flip| - 1], p) + [flip[|flip| - 1]]
  }

  function StackOf(stacks: seq<Stack>, seat: int, c: Card, end: nat): (p: int)
    requires |stacks| == 16 && 0 <= seat < 2 && end <= 8
    ensures p == -1 || (8 * seat <= p < 8 * seat + end && stacks[p].top == Some(c))
    ensures p == -1 ==> forall q :: 8 * seat <= q < 8 * seat + end ==> stacks[q].top != Some(c)
  {
    if end == 0 then -1
    else if stacks[8 * seat + end - 1].top == Some(c) then 8 * seat + end - 1
    else StackOf(stacks, seat, c, end - 1)
  }

  /** The stacks that have to be turned up, in order. */
  function Bare(stacks: seq<Stack>, end: nat): (r: seq<nat>)
    requires end <= |stacks|
    ensures forall p :: p in r <==> 0 <= p < end && stacks[p] == Stack(None, true)
    ensures forall i, j :: 0 <= i < j < |r| ==> r[i] < r[j]
  {
    if end == 0 then []
    else
      var most := Bare(stacks, end - 1);
      if stacks[end - 1] == Stack(None, true) then
        assert forall i :: 0 <= i < |most| ==> most[i] in most;
        most + [end - 1]
      else most
  }

  function ApplyPlay(s: State, seat: int, c: Card): Outcome
    requires |s.stacks| == 16 && 0 <= seat < 2 && s.contract.Some? && |s.trick| < 2
  {
    var g := s.contract.value;
    if s.flip != [] then Fail(MustFlip)
    else if WasPlayed(Plays(s), c) then Fail(BadCard)
    else
      var p := StackOf(s.stacks, seat, c, 8);
      if p < 0 then Fail(BadCard)
      else if !MayPlay(g, Tops(s.stacks, seat), c, s.trick) then Fail(MustFollow)
      else
        var s1 := s.(stacks := s.stacks[p := s.stacks[p].(top := None)], trick := s.trick + [Play(seat, c)]);
        if |s1.trick| < 2 then Ok(s1.(next := 1 - seat)) else Ok(CloseTrick(s1))
  }

  function CloseTrick(s: State): State
    requires |s.stacks| == 16 && s.contract.Some? && |s.trick| == 2
  {
    var g := s.contract.value;
    var w := TrickWinner(g, s.trick);
    var s1 := s.(tricks := s.tricks + [Trick(s.lead, s.trick, w)], trick := []);
    if |s1.tricks| == 16 || (g.NullGame? && w == s.declarer) then s1.(phase := Done, next := -1)
    else s1.(flip := Bare(s.stacks, |s.stacks|), lead := w, next := w)
  }

  predicate Sized(s: State) { |s.stacks| == 16 && |s.trick| < 2 && (s.phase == Playing ==> s.contract.Some?) }

  function Apply(s: State, a: Action): Outcome
    requires Sized(s)
  {
    if !(0 <= a.seat < 2) then Fail(BadAction)
    else if s.phase == Done then Fail(IsDone)
    else match a
      case TurnUp(seat, i, c) => ApplyTurnUp(s, seat, i, c)
      case Kontra(seat) => if KontraOk(s, seat, false) then Ok(s.(kontra := s.kontra + 1)) else Fail(BadKontra)
      case Re(seat) => if KontraOk(s, seat, true) then Ok(s.(kontra := s.kontra + 1)) else Fail(BadKontra)
      case Declare(seat, g) =>
        if seat != Turn(s) then Fail(NotTurn)
        else if s.phase != Declaring then Fail(BadAction)
        else if g.NullGame? && !s.nullRule then Fail(BadGame)
        else Ok(s.(contract := Some(g), phase := Playing, next := s.declarer, lead := s.declarer, trick := []))
      case PlayCard(seat, c) =>
        if seat != Turn(s) then Fail(NotTurn) else if s.phase != Playing then Fail(BadAction) else ApplyPlay(s, seat, c)
  }
}
