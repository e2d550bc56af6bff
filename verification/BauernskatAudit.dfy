/** Every honest hand of Bauernskat goes on to its end, and its audit finds nothing. */
module BauernskatAudit {
  import opened Options
  import opened BauernskatRules
  import opened BauernskatRuns

  // ---------- runs ----------

  function Run(s: State, acts: seq<Action>): Outcome {
    if acts == [] then Ok(s)
    else
      var before := Run(s, acts[..|acts| - 1]);
      if before.Fail? then before else if !Sized(before.state) then Fail(BadAction)
        else Apply(before.state, acts[|acts| - 1])
  }

  /** The first action can be taken off the front as well. */
  lemma {:induction false} RunCons(s: State, a: Action, acts: seq<Action>)
    requires Sized(s) && Apply(s, a).Ok?
    ensures Run(s, [a] + acts) == Run(Apply(s, a).state, acts)
    decreases |acts|
  {
    hide Apply;
    var all := [a] + acts;
    if acts == [] {
      assert all[..0] == [];
    } else {
      assert all[..|all| - 1] == [a] + acts[..|acts| - 1];
      RunCons(s, a, acts[..|acts| - 1]);
    }
  }

  /** Every card turned up in the run is the deal's. */
  predicate TruthfulRun(s: State, d: Deal, acts: seq<Action>)
    requires ValidDeal(d)
    decreases |acts|
  {
    acts == [] || (
      var most := acts[..|acts| - 1];
      TruthfulRun(s, d, most) && Run(s, most).Ok? && Truthful(Run(s, most).state, d, acts[|acts| - 1]))
  }

  // ---------- no hand takes more than 67 actions ----------

  function Missing(stacks: seq<Stack>): nat {
    if stacks == [] then 0 else Missing(stacks[..|stacks| - 1]) + if stacks[|stacks| - 1].top.None? then 1 else 0
  }

  function Covered(stacks: seq<Stack>): nat {
    if stacks == [] then 0 else Covered(stacks[..|stacks| - 1]) + if stacks[|stacks| - 1].under then 1 else 0
  }

  lemma {:induction false} StackChanged(stacks: seq<Stack>, p: nat, st: Stack)
    requires p < |stacks|
    ensures Missing(stacks[p := st]) == Missing(stacks) + (if st.top.None? then 1 else 0) - if stacks[p].top.None? then
      1 else 0
    ensures Covered(stacks[p := st]) == Covered(stacks) + (if st.under then 1 else 0) - if stacks[p].under then 1 else 0
    decreases |stacks|
  {
    var n := |stacks| - 1;
    if p == n {
      assert stacks[p := st][..n] == stacks[..n];
    } else {
      StackChanged(stacks[..n], p, st);
      assert stacks[p := st][..n] == stacks[..n][p := st];
    }
  }

  lemma {:induction false} AtMostAll(stacks: seq<Stack>)
    ensures Missing(stacks) <= |stacks| && Covered(stacks) <= |stacks|
    ensures (forall p :: 0 <= p < |stacks| ==> stacks[p].top.Some?) ==> Missing(stacks) == 0
  {
    if stacks != [] { AtMostAll(stacks[..|stacks| - 1]); }
  }

  function Ahead(s: State): int {
    (if s.phase == Dealing then Missing(s.stacks) else 0) + (if s.phase in {Dealing, Declaring} then 1 else 0)
    + (32 - |Plays(s)|) + Covered(s.stacks) + (2 - s.kontra)
  }

  lemma AheadBounds(s: State, d: Deal)
    requires ValidDeal(d) && Inv(s, d)
    ensures Ahead(s) >= 0
  {
    hide Plays, PlayInv, OnceEach;
  }

  lemma TurnCosts(s: State, d: Deal, seat: int, i: int, c: Card)
    requires ValidDeal(d) && Inv(s, d) && 0 <= seat < 2 && ApplyTurnUp(s, seat, i, c).Ok?
    ensures Ahead(ApplyTurnUp(s, seat, i, c).state) < Ahead(s)
  {
    var p, s' := 8 * seat + i, ApplyTurnUp(s, seat, i, c).state;
    TurnFrame(s, seat, i, c);
    StackChanged(s.stacks, p, s'.stacks[p]);
    if s.phase == Playing { FlipIsBare(s, d, p); }
    if s.phase == Dealing { assert s.stacks[p].under; }
    hide Missing, Covered, Plays, OnceEach, ApplyTurnUp, PlayInv, ValidDeal, DealFits;
  }

  lemma TurnFrame(s: State, seat: int, i: int, c: Card)
    requires Sized(s) && 0 <= seat < 2 && ApplyTurnUp(s, seat, i, c).Ok?
    ensures var s', p := ApplyTurnUp(s, seat, i, c).state, 8 * seat + i;
      && 0 <= i < 8 && |s'.stacks| == 16 && s'.stacks == s.stacks[p := s'.stacks[p]] && Plays(s') == Plays(s)
         && s'.kontra == s.kontra
      && s'.stacks[p].top.Some?
      && (if s.phase == Dealing then s'.phase in {Dealing, Declaring} && s.stacks[p].top.None?
         && s'.stacks[p].under == s.stacks[p].under
          else s.phase == Playing && s'.phase == Playing && p in s.flip && !s'.stacks[p].under)
  {
    hide WasPlayed, Visible, Dropped, Flat;
  }

  lemma FlipIsBare(s: State, d: Deal, p: nat)
    requires ValidDeal(d) && Inv(s, d) && s.phase == Playing && p in s.flip
    ensures p < 16 && s.stacks[p] == Stack(None, true)
  {
    hide StacksFit, CountsOk, OnceEach, ValidDeal;
  }

  lemma PlayCosts(s: State, d: Deal, seat: int, c: Card)
    requires ValidDeal(d) && Inv(s, d) && s.phase == Playing && 0 <= seat < 2 && ApplyPlay(s, seat, c).Ok?
    ensures Ahead(ApplyPlay(s, seat, c).state) < Ahead(s)
  {
    hide ApplyPlay, StackOf, MayPlay, WasPlayed, Tops, TrickWinner, Bare, Missing, Covered, Plays, PlayInv;
    PlayFrame(s, seat, c);
    PlaySeen(s, seat, c);
    if s.trick != [] { CloseFrame(s, seat, c); }
    var p := StackOf(s.stacks, seat, c, 8);
    StackChanged(s.stacks, p, s.stacks[p].(top := None));
  }

  lemma StepCosts(s: State, d: Deal, a: Action)
    requires ValidDeal(d) && Inv(s, d) && Apply(s, a).Ok?
    ensures Ahead(Apply(s, a).state) < Ahead(s)
  {
    hide ApplyPlay, ApplyTurnUp, ValidDeal, PlayInv, OnceEach;
    match a
    case TurnUp(seat, i, c) => TurnCosts(s, d, seat, i, c);
    case PlayCard(seat, c) => PlayCosts(s, d, seat, c);
    case Declare(seat, g) =>
    case Kontra(seat) =>
    case Re(seat) =>
  }

  lemma {:induction false} RunKeeps(s: State, d: Deal, acts: seq<Action>)
    requires ValidDeal(d) && Inv(s, d) && Run(s, acts).Ok? && TruthfulRun(s, d, acts)
    ensures Inv(Run(s, acts).state, d) && |acts| + Ahead(Run(s, acts).state) <= Ahead(s)
  {
    hide Inv, Apply, ValidDeal, Ahead, Truthful;
    if acts != [] {
      var most := acts[..|acts| - 1];
      RunKeeps(s, d, most);
      StepKeeps(Run(s, most).state, d, acts[|acts| - 1]);
      StepCosts(Run(s, most).state, d, acts[|acts| - 1]);
    }
  }

  lemma StartAhead(dealer: int, nullRule: bool, kontraRule: bool)
    ensures Ahead(Start(dealer, nullRule, kontraRule)) <= 67
  {
    var s := Start(dealer, nullRule, kontraRule);
    AtMostAll(s.stacks);
    assert Plays(s) == [];
    hide Missing, Covered;
  }

  /** In a truthful run no card is played twice, and there are at most 67 accepted actions. */
  lemma RunsEnd(d: Deal, dealer: int, nullRule: bool, kontraRule: bool, acts: seq<Action>)
    requires ValidDeal(d) && Run(Start(dealer, nullRule, kontraRule), acts).Ok?
    requires TruthfulRun(Start(dealer, nullRule, kontraRule), d, acts)
    ensures |acts| <= 67 && OnceEach(Plays(Run(Start(dealer, nullRule, kontraRule), acts).state))
  {
    var s := Start(dealer, nullRule, kontraRule);
    StartInv(d, dealer, nullRule, kontraRule);
    StartAhead(dealer, nullRule, kontraRule);
    hide Start, Ahead, ValidDeal, PlayInv, Run, TruthfulRun, OnceEach;
    RunKeeps(s, d, acts);
    AheadBounds(Run(s, acts).state, d);
  }

  // ---------- the mover always has a card ----------

  lemma MoverHasCard(s: State, d: Deal)
    requires ValidDeal(d) && Inv(s, d) && s.phase == Playing && s.flip == []
    ensures 0 <= s.next < 2 && Tops(s.stacks, s.next) != []
  {
    var q := s.next;
    hide StacksFit, OnceEach, ValidDeal;
    assert GoneFrom(s.stacks, 8 * q, 8 * q + 8) == NumberBy(Plays(s), q) == |s.tricks|;
    hide CountsOk, Plays;
    var p := SomethingLeft(s.stacks, 8 * q, 8 * q + 8);
    assert p / 8 == q;
    assert s.stacks[p].top.Some?;
    assert s.stacks[p].top.value in Tops(s.stacks, q);
  }

  lemma {:induction false} SomethingLeft(stacks: seq<Stack>, from: nat, end: nat) returns (p: nat)
    requires from <= end <= |stacks| && GoneFrom(stacks, from, end) < 2 * (end - from)
    ensures from <= p < end && Gone(stacks[p]) < 2
    decreases end
  {
    if Gone(stacks[end - 1]) < 2 { p := end - 1; } else { p := SomethingLeft(stacks, from, end - 1); }
  }

  lemma SomeLegal(g: Game, avail: seq<Card>, trick: seq<Play>)
    requires avail != []
    ensures exists c :: MayPlay(g, avail, c, trick)
  {
    hide SuitOf;
    if trick != [] && exists d :: d in avail && SuitOf(g, d) == SuitOf(g, trick[0].card) {
      var d :| d in avail && SuitOf(g, d) == SuitOf(g, trick[0].card);
      assert MayPlay(g, avail, d, trick);
    } else {
      assert MayPlay(g, avail, avail[0], trick);
    }
  }

  /** A legal card of the seat on turn is accepted. */
  lemma LegalAccepted(s: State, d: Deal, c: Card)
    requires ValidDeal(d) && Inv(s, d) && s.phase == Playing && s.flip == [] && 0 <= s.next < 2
    requires MayPlay(s.contract.value, Tops(s.stacks, s.next), c, s.trick)
    ensures Apply(s, PlayCard(s.next, c)).Ok?
  {
    var q := s.next;
    var p :| 8 * q <= p < 8 * q + 8 && s.stacks[p].top == Some(c);
    assert StackFits(d, s.stacks[p], p, Plays(s));
    hide CountsOk, FlipsOk, OnceEach, ValidDeal, MayPlay, CloseTrick, Tops;
    assert !WasPlayed(Plays(s), c);
    hide WasPlayed, StackFits;
  }

  // ---------- actions, reveals and auto ----------

  function Legal(g: Game, avail: seq<Card>, trick: seq<Play>, n: nat): (r: seq<Card>)
    requires n <= |avail|
    ensures forall c :: c in r <==> c in avail[..n] && MayPlay(g, avail, c, trick)
  {
    if n == 0 then []
    else
      assert avail[..n] == avail[..n - 1] + [avail[n - 1]];
      Legal(g, avail, trick, n - 1) + if MayPlay(g, avail, avail[n - 1], trick) then [avail[n - 1]] else []
  }

  function LegalCards(s: State, seat: int): (r: seq<Card>)
    requires Sized(s) && s.phase == Playing && 0 <= seat < 2
    ensures forall c :: c in r <==> MayPlay(s.contract.value, Tops(s.stacks, seat), c, s.trick)
  {
    var avail := Tops(s.stacks, seat);
    assert avail[..|avail|] == avail;
    Legal(s.contract.value, avail, s.trick, |avail|)
  }

  datatype Reveal = Reveal(seat: int, i: int)

  /** The cards the table may open now. */
  predicate MayReveal(s: State, r: Reveal)
    requires Sized(s)
  {
    && 0 <= r.seat < 2 && 0 <= r.i < 8
    && match s.phase
       case Dealing => s.stacks[8 * r.seat + r.i].top.None?
       case Playing => 8 * r.seat + r.i in s.flip
       case _ => false
  }

  function TrueCard(s: State, d: Deal, r: Reveal): Card
    requires ValidDeal(d) && 0 <= r.seat < 2 && 0 <= r.i < 8
  {
    if s.phase == Dealing then d.up[8 * r.seat + r.i] else d.down[8 * r.seat + r.i]
  }

  /** Every reveal the table may ask for is accepted with its true card. */
  lemma RevealAccepted(s: State, d: Deal, r: Reveal)
    requires ValidDeal(d) && Inv(s, d) && MayReveal(s, r)
    ensures Apply(s, TurnUp(r.seat, r.i, TrueCard(s, d, r))).Ok?
  {
    if s.phase == Dealing { DealtTurn(s, d, r.seat, r.i, TrueCard(s, d, r)); } else { FlipAccepted(s, d, r.seat, r.i); }
    hide ApplyTurnUp, Inv, ValidDeal;
  }

  function EyesOf(r: Rank): nat {
    match r case Ace => 11 case Ten => 10 case King => 4 case Queen => 3 case Jack => 2 case _ => 0
  }

  function NameOf(c: Card): nat {
    (match c.suit case Clubs => 0 case Diamonds => 1 case Hearts => 2 case Spades => 3) * 8 +
    (match c.rank
     case Seven => 0 case Eight => 1 case Nine => 2
     case Ace => 3 case Jack => 4 case King => 5 case Queen => 6 case Ten => 7)
  }

  predicate Weaker(g: Game, led: Option<Led>, c: Card, e: Card) {
    var p, q := Power(g, c, if led.Some? then led.value else SuitOf(g, c)),
      Power(g, e, if led.Some? then led.value else SuitOf(g, e));
    p < q || (p == q && (EyesOf(c.rank) < EyesOf(e.rank)
      || (EyesOf(c.rank) == EyesOf(e.rank) && NameOf(c) < NameOf(e))))
  }

  /** The weakest of the cards: none is weaker. */
  function WeakestOf(g: Game, led: Option<Led>, cards: seq<Card>): (w: Card)
    requires cards != []
    ensures w in cards && forall c :: c in cards ==> !Weaker(g, led, c, w)
  {
    hide Power, SuitOf, EyesOf, NameOf;
    var n := |cards| - 1;
    if n == 0 then cards[0]
    else
      var w := WeakestOf(g, led, cards[..n]);
      assert cards == cards[..n] + [cards[n]];
      if Weaker(g, led, cards[n], w) then cards[n] else w
  }

  function JacksIn(cs: seq<Card>): nat {
    if cs == [] then 0 else JacksIn(cs[1..]) + if cs[0].rank == Jack then 1 else 0
  }

  function TrumpsIn(g: Game, cs: seq<Card>): nat {
    if cs == [] then 0 else TrumpsIn(g, cs[1..]) + if IsTrump(g, cs[0]) then 1 else 0
  }

  /** Grand with three jacks or more, else the first suit with the most trumps. */
  function AutoGame(mine: seq<Card>): (g: Game)
    ensures !g.NullGame?
    ensures g.Grand? <==> JacksIn(mine) >= 3
  {
    if JacksIn(mine) >= 3 then Grand
    else
      var c, s, h, d := TrumpsIn(SuitGame(Clubs), mine), TrumpsIn(SuitGame(Spades), mine),
        TrumpsIn(SuitGame(Hearts), mine), TrumpsIn(SuitGame(Diamonds), mine);
      var a := if s > c then Spades else Clubs;
      var b := if h > (if s > c then s else c) then Hearts else a;
      var most := if h > (if s > c then s else c) then h else if s > c then s else c;
      SuitGame(if d > most then Diamonds else b)
  }

  function Auto(s: State, seat: int): Option<Action>
    requires Sized(s) && 0 <= seat < 2
  {
    if Turn(s) != seat then None
    else if s.phase == Declaring then Some(Declare(seat, AutoGame(Tops(s.stacks, seat))))
    else if s.phase != Playing || s.flip != [] then None
    else
      var ok := LegalCards(s, seat);
      var led := if s.trick == [] then None else Some(SuitOf(s.contract.value, s.trick[0].card));
      if ok == [] then None else Some(PlayCard(seat, WeakestOf(s.contract.value, led, ok)))
  }

  /** The move for an absent player is there and accepted whenever a seat is to move and nothing is left to turn up. */
  lemma AutoAccepted(s: State, d: Deal)
    requires ValidDeal(d) && Inv(s, d) && (s.phase == Declaring || (s.phase == Playing && s.flip == []))
    ensures 0 <= Turn(s) < 2 && Auto(s, Turn(s)).Some? && Apply(s, Auto(s, Turn(s)).value).Ok?
    ensures !Auto(s, Turn(s)).value.TurnUp?
  {
    if s.phase == Playing {
      MoverHasCard(s, d);
      var seat, g := s.next, s.contract.value;
      var ok, led := LegalCards(s, seat), if s.trick == [] then None else Some(SuitOf(g, s.trick[0].card));
      SomeLegal(g, Tops(s.stacks, seat), s.trick);
      var c :| MayPlay(g, Tops(s.stacks, seat), c, s.trick);
      assert c in ok;
      var w := WeakestOf(g, led, ok);
      assert w in ok;
      hide MayPlay, Tops, Weaker, PlayInv, OnceEach, ValidDeal;
      LegalAccepted(s, d, w);
      hide Apply;
    } else {
      hide AutoGame, Tops, OnceEach, ValidDeal;
      AutoGameIs(Tops(s.stacks, s.declarer));
    }
  }

  lemma AutoSuitIsBest(mine: seq<Card>, x: Suit)
    requires JacksIn(mine) < 3
    ensures AutoGame(mine).SuitGame? && TrumpsIn(SuitGame(x), mine) <= TrumpsIn(AutoGame(mine), mine)
  {
    hide TrumpsIn, JacksIn;
    match x { case Clubs => case Spades => case Hearts => case Diamonds => }
  }

  lemma AutoGameIs(mine: seq<Card>)
    ensures !AutoGame(mine).NullGame?
  {
  }

  /** Every legal card and nothing else is offered, and all of it is accepted. */
  lemma OfferedAccepted(s: State, d: Deal, c: Card)
    requires ValidDeal(d) && Inv(s, d) && s.phase == Playing && s.flip == [] && 0 <= s.next < 2
    ensures c in LegalCards(s, s.next) <==> Apply(s, PlayCard(s.next, c)).Ok?
  {
    if c in LegalCards(s, s.next) {
      LegalAccepted(s, d, c);
    }
    if Apply(s, PlayCard(s.next, c)).Ok? {
      PlayFrame(s, s.next, c);
    }
    hide Inv, ValidDeal, Tops, MayPlay;
  }
}
