/**
  When calls may come. A comment of the rules says that a higher call comes only while the first one could; the code
  does not keep to that.
 */
module DokoCalls {
  import opened Options
  import opened DokoCards
  import opened DokoRules
  import opened DokoGame
  import opened DokoRuns

  function Held(s: State, seat: int): int
    requires Sized(s) && 0 <= seat < 4
  {
    HAND - s.played[seat]
  }

  /** How many cards plain Re or Kontra needs now; an answer needs one fewer than the call it answers did. */
  function FirstNeeds(s: State, p: Party): int {
    var shift := if s.clar > 1 then s.clar - 1 else 0;
    var other := Level(s, Opp(p));
    if 0 <= other <= 4 then Min(11, 10 - other) - shift else 11 - shift
  }

  /**
    A call above Re or Kontra comes while the party's first call still could exactly when the seat holds enough cards
    for that one too.
   */
  lemma HigherCallAlone(s: State, seat: int, p: Party, lvl: int)
    requires Sized(s) && 0 <= seat < 4 && lvl >= 1 && Level(s, p) < 0 && CallOk(s, seat, p, lvl)
    ensures CallOk(s, seat, p, 0) <==> Held(s, seat) >= FirstNeeds(s, p)
  {
    assert forall l :: 0 <= l <= 4 ==> NEED[l] == 11 - l;
  }

  /** Playing a card never opens a call that was too late. */
  lemma TooLateStaysTooLate(s: State, seat: int, card: Card, x: int, p: Party, lvl: int)
    requires Inv(s) && 0 <= seat < 4 && 0 <= x < 4 && ApplyPlay(s, seat, card).Ok? && 0 <= lvl <= 4 && lvl > Level(s, p)
    requires s.kind != Wedding || s.partner >= 0
    requires !CallOk(s, x, p, lvl)
    ensures Sized(ApplyPlay(s, seat, card).state) && !CallOk(ApplyPlay(s, seat, card).state, x, p, lvl)
  {
    PlayFrame(s, seat, card);
    SameTalk(s, seat, card);
    SettledPlay(s, seat, card);
    hide ApplyPlay, Inv, TrickWinner, EyeSum, Trumps;
  }

  /** Once the parties are settled a card changes neither the kind nor the clarification. */
  lemma SettledPlay(s: State, seat: int, card: Card)
    requires Sized(s) && 0 <= seat < 4 && ApplyPlay(s, seat, card).Ok? && (s.kind != Wedding || s.partner >= 0)
    ensures var s' := ApplyPlay(s, seat, card).state; s'.clar == s.clar && s'.kind == s.kind && s'.partner == s.partner
  {
    hide BestIndex, EyeSum, Count, Plays;
  }

  // ---------- a hand in which it happens ----------

  lemma RunSnoc(s: State, acts: seq<Action>, a: Action)
    requires Run(s, acts).Ok? && Sized(Run(s, acts).state)
    ensures Run(s, acts + [a]) == Apply(Run(s, acts).state, a)
  {
    assert (acts + [a])[..|acts|] == acts;
  }

  lemma FreshCard(s: State, seat: int, c: Card)
    requires Inv(s) && s.phase == Playing && seat == Turn(s) && 0 <= seat < 4 && c !in CardsOf(Plays(s))
    ensures Apply(s, Play(seat, c)).Ok? && CardsOf(Plays(Apply(s, Play(seat, c)).state)) == CardsOf(Plays(s)) + [c]
  {
    CountIn(CardsOf(Plays(s)), c);
    PlaySeen(s, seat, c);
    hide Plays, Count, CloseTrick;
  }

  /** A normal game without calls, so far. */
  ghost predicate Quiet(s: State) {
    Inv(s) && s.phase == Playing && s.kind == Normal && s.re == s.kontra == -1 && s.clar == 0
      && s.claim == [None, None, None, None]
  }

  lemma QuietPlay(s: State, c: Card)
    requires Quiet(s) && c !in CardsOf(Plays(s)) && |s.tricks| < 11
    ensures 0 <= Turn(s) < 4 && Apply(s, Play(Turn(s), c)).Ok? && Quiet(Apply(s, Play(Turn(s), c)).state)
    ensures var s' := Apply(s, Play(Turn(s), c)).state;
      && CardsOf(Plays(s')) == CardsOf(Plays(s)) + [c]
      && (if |s.cards| < 3 then |s'.cards| == |s.cards| + 1 && |s'.tricks| == |s.tricks|
         else |s'.cards| == 0 && |s'.tricks| == |s.tricks| + 1)
  {
    hide Plays, ApplyPlay, AtMostTwice, Sides, TalkOk, QueueOk, TrickWinner, EyeSum, Trumps;
    FreshCard(s, Turn(s), c);
    StepKeeps(s, Play(Turn(s), c));
    PlayFrame(s, Turn(s), c);
    SameTalk(s, Turn(s), c);
    SettledPlay(s, Turn(s), c);
  }

  function FiveCards(): seq<Card> {
    [Card(Clubs, Ace), Card(Clubs, Ten), Card(Clubs, King), Card(Clubs, Nine), Card(Spades, Ace)]
  }

  /** n cards of the five have been played in a quiet hand. */
  ghost predicate After(s: State, n: nat) {
    n <= 5 && Quiet(s) && CardsOf(Plays(s)) == FiveCards()[..n] && 4 * |s.tricks| + |s.cards| == n
  }

  lemma {:induction false} PlayFive(s0: State, acts: seq<Action>, n: nat) returns (more: seq<Action>)
    requires n <= 5 && Run(s0, acts).Ok? && After(Run(s0, acts).state, n)
    ensures Run(s0, more).Ok? && After(Run(s0, more).state, 5)
    decreases 5 - n
  {
    if n == 5 { return acts; }
    var s, c := Run(s0, acts).state, FiveCards()[n];
    assert c !in FiveCards()[..n];
    hide Quiet, FiveCards, Plays, Run, CardsOf, Apply;
    SmallHand(s, n);
    QuietPlay(s, c);
    RunSnoc(s0, acts, Play(Turn(s), c));
    NextFive(n);
    more := PlayFive(s0, acts + [Play(Turn(s), c)], n + 1);
  }

  lemma NextFive(n: nat)
    requires n < 5
    ensures FiveCards()[..n] + [FiveCards()[n]] == FiveCards()[..n + 1]
  {
  }

  lemma SmallHand(s: State, n: nat)
    requires After(s, n)
    ensures Sized(s) && |s.tricks| < 11 && |s.cards| <= 3
  {
    hide AtMostTwice, Sides, TalkOk, Plays, FiveCards;
  }

  lemma EveryoneHealthy() returns (acts: seq<Action>)
    ensures Run(Start(3, false, false), acts).Ok? && After(Run(Start(3, false, false), acts).state, 0)
  {
    var s0 := Start(3, false, false);
    acts := [Reserve(0, Healthy), Reserve(1, Healthy), Reserve(2, Healthy), Reserve(3, Healthy)];
    Reserved();
    StartInv(3, false, false);
    RunKeeps(s0, acts);
    hide Inv, Run;
  }

  lemma Reserved()
    ensures var s := Start(3, false, false);
      Run(s, [Reserve(0, Healthy), Reserve(1, Healthy), Reserve(2, Healthy), Reserve(3, Healthy)]) ==
        Ok(s.(phase := Playing, ask := 3, say := [Healthy, Healthy, Healthy, Healthy]))
  {
    hide Run, Apply;
    var s := Start(3, false, false);
    var a, b, c, d := Reserve(0, Healthy), Reserve(1, Healthy), Reserve(2, Healthy), Reserve(3, Healthy);
    assert [] + [a] == [a] && [a] + [b] == [a, b] && [a, b] + [c] == [a, b, c] && [a, b, c] + [d] == [a, b, c, d];
    assert s == Said(0) && Said(4).say == [Healthy, Healthy, Healthy, Healthy];
    RunNothing(s);
    HealthySaid(0);
    RunSnoc(s, [], a);
    HealthySaid(1);
    RunSnoc(s, [a], b);
    HealthySaid(2);
    RunSnoc(s, [a, b], c);
    HealthySaid(3);
    RunSnoc(s, [a, b, c], d);
  }

  lemma RunNothing(s: State)
    ensures Run(s, []) == Ok(s)
  {
  }

  /** The first k seats have said they are healthy. */
  function Said(k: nat): State {
    Start(3, false, false).(ask := if k < 4 then k else 3, phase := if k < 4 then Reserving else Playing,
                            say := seq(4, i => if i < k then Healthy else Unsaid))
  }

  lemma HealthySaid(k: nat)
    requires k < 4
    ensures Apply(Said(k), Reserve(k, Healthy)) == Ok(Said(k + 1))
  {
    assert Said(k).say[k := Healthy] == Said(k + 1).say;
  }

  /**
    There is a hand in which the party's first call is refused as too late and a higher one is accepted right there.
   */
  lemma HigherCallAfterTheFirst() returns (acts: seq<Action>, seat: int)
    ensures 0 <= seat < 4 && Run(Start(3, false, false), acts).Ok? && Sized(Run(Start(3, false, false), acts).state)
    ensures var s := Run(Start(3, false, false), acts).state;
      Apply(s, Announce(seat, Re, SayRe)) == Fail(TooLate) && Apply(s, Announce(seat, Re, K90)).Ok?
  {
    var s0 := Start(3, false, false);
    acts := EveryoneHealthy();
    acts := PlayFive(s0, acts, 0);
    var s := Run(s0, acts).state;
    seat := s.lead;
    TenLeft(s);
    hide Run, Quiet, Start;
  }

  /** After five cards the seat that leads holds ten. */
  lemma TenLeft(s: State)
    requires After(s, 5)
    ensures Sized(s) && 0 <= s.lead < 4 && Held(s, s.lead) == 10
    ensures Apply(s, Announce(s.lead, Re, SayRe)) == Fail(TooLate) && Apply(s, Announce(s.lead, Re, K90)).Ok?
  {
    assert |s.tricks| == 1 && |s.cards| == 1;
    hide AtMostTwice, Sides, TalkOk, Plays, FiveCards, TrickOk;
    assert s.played[s.lead] == 2;
    assert KnownParty(s, s.lead) == None;
  }
}
