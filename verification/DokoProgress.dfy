/** Honest hands always go on to the end, and the audit finds exactly the dishonest ones. */
module DokoProgress {
  import opened DokoCards
  import opened DokoRules
  import opened DokoGame
  import opened DokoRuns
  import opened DokoScore
  import opened DokoAudit

  // ---------- honest actions ----------

  /**
    The action is true: the card from the hand and following suit, a marriage with both Club Queens, a call for one's
    own party.
   */
  ghost predicate Truthful(s: State, hands: seq<seq<Card>>, a: Action)
    requires |hands| == 4 && 0 <= a.seat < 4
  {
    match a
    case Reserve(seat, v) => v == Marriage ==> QueensOf(hands, seat) == 2
    case Play(seat, card) => MayPlay(Trumps(s.kind), s.cards, Left(hands[seat], Plays(s), seat), card)
    case Announce(seat, p, name) => s.kind == Normal ==> (p == Re <==> QueensOf(hands, seat) > 0)
  }

  /** Every action of an accepted run was true when it was made, by the kind of game at that moment. */
  ghost predicate HonestRun(s: State, hands: seq<seq<Card>>, acts: seq<Action>)
    requires |hands| == 4
    decreases acts
  {
    acts == [] || (
      var most, a := acts[..|acts| - 1], acts[|acts| - 1];
      HonestRun(s, hands, most) && Run(s, most).Ok? && 0 <= a.seat < 4 && Truthful(Run(s, most).state, hands, a))
  }

  /** The part of the audit that depends on the actions. */
  ghost predicate Honest(s: State, hands: seq<seq<Card>>)
    requires |hands| == 4 && |s.say| == 4
  {
    && Seated(Plays(s)) && AllLegal(Trumps(s.kind), hands, Plays(s)) && MarriagesTrue(s.say, hands)
       && CallsTrue(s, hands)
  }

  ghost predicate CallsTrue(s: State, hands: seq<seq<Card>>)
    requires |hands| == 4
  {
    s.kind == Normal ==> forall i :: 0 <= i < |s.calls| && 0 <= s.calls[i].seat < 4 ==>
      (s.calls[i].party == Re <==> QueensOf(hands, s.calls[i].seat) > 0)
  }

  /** In a solo or a marriage the table itself knows the parties, so only calls of a normal game can be false. */
  lemma CallsAreJudged(s: State, hands: seq<seq<Card>>)
    requires Inv(s) && |hands| == 4 && ValidDeal(hands)
    ensures CallsFit(s.calls, Parties(s, hands).re) <==> CallsTrue(s, hands)
  {
    hide TalkOk, TableOk, AtMostTwice, ValidDeal, QueensOf, SilentSeat, QueenSeats;
    if s.kind == Normal {
      DealSides(s, hands);
    } else {
      forall i | 0 <= i < |s.calls| ensures s.calls[i].party == Side(Parties(s, hands).re, s.calls[i].seat) {
        assert CallKnown(s.kind, s.soloist, s.partner, s.calls[i]);
      }
    }
  }

  lemma CleanIsHonest(s: State, hands: seq<seq<Card>>)
    requires Inv(s) && |hands| == 4
    ensures Clean(s, hands) <==> ValidDeal(hands) && Honest(s, hands)
  {
    hide Inv, ValidDeal, AllLegal, MarriagesTrue, CallsFit, CallsTrue, Trumps, Plays, Parties;
    SeatedPlays(s);
    SaysFour(s);
    if ValidDeal(hands) { CallsAreJudged(s, hands); }
  }

  // ---------- one action at a time ----------

  lemma ReserveHonest(s: State, hands: seq<seq<Card>>, seat: int, v: Say)
    requires Inv(s) && |hands| == 4 && 0 <= seat < 4 && ApplyReserve(s, seat, v).Ok?
    ensures var s' := ApplyReserve(s, seat, v).state;
      |s'.say| == 4 && (Honest(s', hands) <==> (Honest(s, hands) && Truthful(s, hands, Reserve(seat, v))))
  {
    var s' := ApplyReserve(s, seat, v).state;
    ReserveFrame(s, seat, v);
    SpeaksOnce(s, seat, v);
    assert Plays(s) == Plays(s') == [];
    hide ApplyReserve, Inv, QueensOf, Left;
    assert forall x :: 0 <= x < 4 ==> s'.say[x] == if x == seat then v else s.say[x];
  }

  lemma SpeaksOnce(s: State, seat: int, v: Say)
    requires Inv(s) && 0 <= seat < 4 && ApplyReserve(s, seat, v).Ok?
    ensures s.say[seat] != Marriage
  {
    hide TableOk, AtMostTwice, Sides, QueueOk, QueueIndex, Begin;
    NextPlace(s.dealer, seat);
  }

  /** The cards on the table are those since the trick began. */
  lemma OpenTrick(s: State)
    requires Inv(s)
    ensures Plays(s)[TrickStart(|Plays(s)|)..] == s.cards
  {
    TableHolds(s);
    FlatSize(s.tricks);
    hide TrickOk, AtMostTwice, Sides, TalkOk, Flat;
    var f := Flat(s.tricks);
    assert TrickStart(|f + s.cards|) == |f|;
  }

  lemma PlayHonest(s: State, hands: seq<seq<Card>>, seat: int, card: Card)
    requires Inv(s) && |hands| == 4 && 0 <= seat < 4 && ApplyPlay(s, seat, card).Ok?
    ensures var s' := ApplyPlay(s, seat, card).state;
      |s'.say| == 4 && (Honest(s', hands) <==> (Honest(s, hands) && Truthful(s, hands, Play(seat, card))))
  {
    hide ApplyPlay, TalkOk, TableOk, AtMostTwice, AllLegal, Trumps, QueensOf, MayPlay, Plays, Left;
    SeatedPlays(s);
    PlaySeen(s, seat, card);
    SameTalk(s, seat, card);
    OpenTrick(s);
    LegalSnoc(Trumps(s.kind), hands, Plays(s), Played(seat, card));
  }

  lemma CallHonest(s: State, hands: seq<seq<Card>>, seat: int, p: Party, name: CallName)
    requires Inv(s) && |hands| == 4 && 0 <= seat < 4 && ApplyCall(s, seat, p, name).Ok?
    ensures var s' := ApplyCall(s, seat, p, name).state;
      |s'.say| == 4 && (Honest(s', hands) <==> (Honest(s, hands) && Truthful(s, hands, Announce(seat, p, name))))
  {
    hide TalkOk, TableOk, AtMostTwice, AllLegal, Trumps, QueensOf, MarriagesTrue, CallOk, KnownParty, Flat;
    var s' := ApplyCall(s, seat, p, name).state;
    assert Plays(s') == Plays(s);
    hide Plays;
    assert forall i :: 0 <= i < |s.calls| ==> s'.calls[i] == s.calls[i];
    var last := s'.calls[|s.calls|];
    assert last.seat == seat && last.party == p;
    hide ApplyCall, Sides;
  }

  lemma StepHonest(s: State, hands: seq<seq<Card>>, a: Action)
    requires Inv(s) && |hands| == 4 && Apply(s, a).Ok?
    ensures |Apply(s, a).state.say| == |s.say| == 4 && 0 <= a.seat < 4
    ensures Honest(Apply(s, a).state, hands) <==> (Honest(s, hands) && Truthful(s, hands, a))
  {
    hide Inv, Honest, Truthful, ApplyReserve, ApplyPlay, ApplyCall;
    SaysFour(s);
    match a
    case Reserve(seat, v) => ReserveHonest(s, hands, seat, v);
    case Play(seat, card) => PlayHonest(s, hands, seat, card);
    case Announce(seat, p, name) => CallHonest(s, hands, seat, p, name);
  }

  lemma {:induction false} RunHonest(s: State, hands: seq<seq<Card>>, acts: seq<Action>)
    requires Inv(s) && |hands| == 4 && Run(s, acts).Ok? && |s.say| == 4 && Honest(s, hands)
    ensures Inv(Run(s, acts).state) && |Run(s, acts).state.say| == 4
    ensures Honest(Run(s, acts).state, hands) <==> HonestRun(s, hands, acts)
    decreases acts
  {
    hide Inv, Honest, Truthful, Apply;
    RunKeeps(s, acts);
    SaysFour(Run(s, acts).state);
    if acts != [] {
      var most, a := acts[..|acts| - 1], acts[|acts| - 1];
      RunHonest(s, hands, most);
      StepHonest(Run(s, most).state, hands, a);
    }
  }

  /**
    The audit of any run, judged by the final kind, is empty exactly when the deal was valid and every action true
    when it was made.
   */
  lemma AuditMeaning(dealer: Seat, dulle: bool, noSpecials: bool, hands: seq<seq<Card>>, acts: seq<Action>)
    requires |hands| == 4 && Run(Start(dealer, dulle, noSpecials), acts).Ok?
    ensures var s := Run(Start(dealer, dulle, noSpecials), acts).state;
      Inv(s) && (Clean(s, hands) <==> ValidDeal(hands) && HonestRun(Start(dealer, dulle, noSpecials), hands, acts))
  {
    var s := Start(dealer, dulle, noSpecials);
    StartInv(dealer, dulle, noSpecials);
    assert Honest(s, hands);
    hide Inv, Honest, Start, Clean, ValidDeal;
    RunHonest(s, hands, acts);
    CleanIsHonest(Run(s, acts).state, hands);
  }
}
