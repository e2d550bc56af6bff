/** The audit of Bauernskat: the played cards replayed against the revealed deal. */
module BauernskatReplay {
  import opened Options
  import opened BauernskatRules
  import opened BauernskatRuns
  import opened BauernskatAudit

  datatype Replayed = Replayed(stacks: seq<Stack>, ok: bool)

  function Dealt(d: Deal): seq<Stack>
    requires |d.up| == 16
  {
    seq(16, p requires 0 <= p < 16 => Stack(Some(d.up[p]), true))
  }

  function Taken(stacks: seq<Stack>, seat: int, c: Card): seq<Stack> {
    seq(|stacks|, p requires 0 <= p < |stacks| => if p / 8 == seat
      && stacks[p].top == Some(c) then stacks[p].(top := None) else stacks[p])
  }

  function TurnedAll(stacks: seq<Stack>, d: Deal): seq<Stack>
    requires |stacks| == |d.down| == 16
  {
    seq(16, p requires 0 <= p < 16 => if stacks[p] == Stack(None, true) then Stack(Some(d.down[p]), false)
      else stacks[p])
  }

  predicate Seated(ps: seq<Play>) { forall k :: 0 <= k < |ps| ==> 0 <= ps[k].seat < 2 }

  /** The open trick among the first k cards: tricks are every two cards. */
  function OpenTrick(ps: seq<Play>): seq<Play> { ps[|ps| - |ps| % 2..] }

  /**
    One card against the stacks: it must lie open, follow suit, and is gone then; a full trick turns the bare stacks.
   */
  function ReplayCard(d: Deal, g: Game, r: Replayed, before: seq<Play>, x: Play): (r': Replayed)
    requires ValidDeal(d) && |r.stacks| == 16 && 0 <= x.seat < 2
    ensures |r'.stacks| == 16
  {
    var taken := Taken(r.stacks, x.seat, x.card);
    Replayed(if |before| % 2 == 1 then TurnedAll(taken, d) else taken,
             r.ok && MayPlay(g, Tops(r.stacks, x.seat), x.card, OpenTrick(before)))
  }

  function Replay(d: Deal, g: Game, ps: seq<Play>): (r: Replayed)
    requires ValidDeal(d) && Seated(ps)
    ensures |r.stacks| == 16
  {
    if ps == [] then Replayed(Dealt(d), true)
    else
      var most := ps[..|ps| - 1];
      ReplayCard(d, g, Replay(d, g, most), most, ps[|ps| - 1])
  }

  lemma ReplaySnoc(d: Deal, g: Game, ps: seq<Play>, x: Play)
    requires ValidDeal(d) && Seated(ps) && 0 <= x.seat < 2
    ensures Seated(ps + [x]) && Replay(d, g, ps + [x]) == ReplayCard(d, g, Replay(d, g, ps), ps, x)
  {
    assert (ps + [x])[..|ps|] == ps;
    hide ReplayCard, ValidDeal;
  }

  // ---------- the replay follows the run ----------

  ghost predicate Follows(s: State, d: Deal)
    requires ValidDeal(d) && |s.stacks| == 16
  {
    && Seated(Plays(s))
    && (s.contract.Some? ==>
          var r := Replay(d, s.contract.value, Plays(s));
          r.ok && (s.phase == Playing ==> r.stacks == if s.trick == [] then TurnedAll(s.stacks, d) else s.stacks))
  }

  lemma NothingBare(s: State, d: Deal)
    requires ValidDeal(d) && Inv(s, d) && s.phase == Playing && s.flip == [] && s.trick == []
    ensures TurnedAll(s.stacks, d) == s.stacks
  {
    hide StacksFit, CountsOk, OnceEach;
    assert forall p :: 0 <= p < 16 ==> s.stacks[p] != Stack(None, true);
  }

  lemma TakenIs(s: State, d: Deal, p: nat, seat: int, c: Card)
    requires ValidDeal(d) && StacksFit(d, s.stacks, Plays(s)) && p < 16 && p / 8 == seat && s.stacks[p].top == Some(c)
    ensures Taken(s.stacks, seat, c) == s.stacks[p := s.stacks[p].(top := None)]
  {
    forall q | 0 <= q < 16 && q != p ensures s.stacks[q].top != Some(c) {
      assert StackFits(d, s.stacks[q], q, Plays(s)) && StackFits(d, s.stacks[p], p, Plays(s));
      hide WasPlayed;
    }
    hide StacksFit, StackFits, ValidDeal;
  }

  lemma OpenTrickIs(s: State)
    requires TableOk(s)
    ensures OpenTrick(Plays(s)) == s.trick && |Plays(s)| % 2 == |s.trick|
  {
    FlatSize(s.tricks);
    hide Flat, TrickOk;
  }

  lemma PlayFollows(s: State, d: Deal, seat: int, c: Card)
    requires ValidDeal(d) && Inv(s, d) && Follows(s, d) && s.phase == Playing && 0 <= seat < 2 && seat == s.next
    requires ApplyPlay(s, seat, c).Ok?
    ensures |ApplyPlay(s, seat, c).state.stacks| == 16 && Follows(ApplyPlay(s, seat, c).state, d)
  {
    var s', g, p, x := ApplyPlay(s, seat, c).state, s.contract.value, StackOf(s.stacks, seat, c, 8), Play(seat, c);
    OpenTrickIs(s);
    if s.flip == [] && s.trick == [] { NothingBare(s, d); }
    PlayFrame(s, seat, c);
    PlaySeen(s, seat, c);
    TakenIs(s, d, p, seat, c);
    hide Inv, ApplyPlay, StackOf, WasPlayed, MayPlay, TrickWinner, Tops;
    hide OpenTrick, Taken, TurnedAll, Plays, ValidDeal, Replay;
    ReplaySnoc(d, g, Plays(s), x);
  }

  lemma FlipFollows(s: State, s': State, d: Deal, p: nat)
    requires ValidDeal(d) && Inv(s, d) && Follows(s, d) && s.phase == Playing && p in s.flip
    requires s' == s.(flip := s'.flip, stacks := s'.stacks) && p < 16
    requires s'.stacks == s.stacks[p := Stack(Some(d.down[p]), false)]
    ensures Follows(s', d)
  {
    FlipIsBare(s, d, p);
    assert s.trick == [] by { hide StacksFit, CountsOk, OnceEach, ValidDeal; }
    assert TurnedAll(s'.stacks, d) == TurnedAll(s.stacks, d);
    assert Plays(s') == Plays(s);
    hide Inv, TurnedAll, Plays, ValidDeal, Replay;
  }

  lemma DeclareFollows(s: State, d: Deal, g: Game)
    requires ValidDeal(d) && Inv(s, d) && s.phase == Declaring
    ensures Follows(s.(contract := Some(g), phase := Playing, next := s.declarer, lead := s.declarer, trick := []), d)
  {
    var s' := s.(contract := Some(g), phase := Playing, next := s.declarer, lead := s.declarer, trick := []);
    assert Plays(s') == [];
    assert TurnedAll(s.stacks, d) == s.stacks;
    assert Dealt(d) == s.stacks;
  }

  lemma StepFollows(s: State, d: Deal, a: Action)
    requires ValidDeal(d) && Inv(s, d) && Follows(s, d) && Apply(s, a).Ok? && Truthful(s, d, a)
    ensures Sized(Apply(s, a).state) && Follows(Apply(s, a).state, d)
  {
    hide ApplyPlay, ApplyTurnUp, ValidDeal, Follows, PlayInv, OnceEach, DealFits, Plays;
    StepKeeps(s, d, a);
    match a
    case PlayCard(seat, c) => PlayFollows(s, d, seat, c);
    case Declare(seat, g) => DeclareFollows(s, d, g);
    case TurnUp(seat, i, c) => TurnFollows(s, d, seat, i, c);
    case Kontra(seat) => SaysFollow(s, Apply(s, a).state, d);
    case Re(seat) => SaysFollow(s, Apply(s, a).state, d);
  }

  lemma SaysFollow(s: State, s': State, d: Deal)
    requires ValidDeal(d) && |s.stacks| == 16 && Follows(s, d) && s' == s.(kontra := s'.kontra)
    ensures Follows(s', d)
  {
    assert Plays(s') == Plays(s);
    hide Plays, Replay, TurnedAll, ValidDeal;
  }

  lemma TurnFollows(s: State, d: Deal, seat: int, i: int, c: Card)
    requires ValidDeal(d) && Inv(s, d) && Follows(s, d) && 0 <= seat < 2 && ApplyTurnUp(s, seat, i, c).Ok?
    requires Truthful(s, d, TurnUp(seat, i, c))
    ensures Sized(ApplyTurnUp(s, seat, i, c).state) && Follows(ApplyTurnUp(s, seat, i, c).state, d)
  {
    var s' := ApplyTurnUp(s, seat, i, c).state;
    if s.phase == Dealing {
      assert s'.contract == None && Plays(s') == [];
    } else {
      assert s'.stacks == s.stacks[8 * seat + i := Stack(Some(c), false)];
      hide Follows, PlayInv, OnceEach, WasPlayed, Visible, Dropped, ValidDeal;
      FlipFollows(s, s', d, 8 * seat + i);
    }
  }

  // ---------- the audit itself ----------

  datatype Fault = WrongDeck | WrongStack | NotOpen | NotFollowed
  datatype Complaint = Complaint(seat: int, fault: Fault)

  /** What lies open is what the deal says. */
  predicate TopsFit(stacks: seq<Stack>, d: Deal)
    requires |stacks| == |d.up| == |d.down| == 16
  {
    forall p ::
      0 <= p < 16 && stacks[p].top.Some? ==> stacks[p].top.value == if stacks[p].under then d.up[p] else d.down[p]
  }

  ghost predicate Clean(s: State, d: Deal)
    requires Sized(s) && Seated(Plays(s))
  {
    s.contract.Some? ==> ValidDeal(d) && TopsFit(s.stacks, d) && Replay(d, s.contract.value, Plays(s)).ok
  }

  method AuditStacks(stacks: seq<Stack>, d: Deal) returns (out: seq<Complaint>)
    requires ValidDeal(d) && |stacks| == 16
    ensures out == [] <==> TopsFit(stacks, d)
  {
    out := [];
    for p := 0 to 16
      invariant out == [] <==>
        forall q ::
          0 <= q < p && stacks[q].top.Some? ==> stacks[q].top.value == if stacks[q].under then d.up[q] else d.down[q]
    {
      if stacks[p].top.Some? && stacks[p].top.value != (if stacks[p].under then d.up[p] else d.down[p]) {
        out := out + [Complaint(p / 8, WrongStack)];
      }
    }
  }

  /** One card of the replay, changing the stacks. */
  method AuditCard(d: Deal, g: Game, stacks: seq<Stack>, trick: seq<Play>, x: Play)
      returns (stacks': seq<Stack>, out: seq<Complaint>)
    requires |stacks| == 16 && 0 <= x.seat < 2
    ensures out == [] <==> MayPlay(g, Tops(stacks, x.seat), x.card, trick)
    ensures |stacks'| == 16 && (out == [] ==> stacks' == Taken(stacks, x.seat, x.card))
  {
    hide SuitOf;
    var avail := Tops(stacks, x.seat);
    out := [];
    if x.card !in avail { return stacks, [Complaint(x.seat, NotOpen)]; }
    if !MayPlay(g, avail, x.card, trick) { out := [Complaint(x.seat, NotFollowed)]; }
    stacks' := Taken(stacks, x.seat, x.card);
  }

  /** The next card of the replay; turning the bare stacks after a full trick is still to come. */
  method AuditNext(d: Deal, g: Game, stacks: seq<Stack>, trick: seq<Play>, x: Play, ghost before: seq<Play>)
    returns (stacks': seq<Stack>, out: seq<Complaint>)
    requires ValidDeal(d) && |stacks| == 16 && 0 <= x.seat < 2 && Seated(before) && trick == OpenTrick(before)
    requires Replay(d, g, before).ok ==> stacks == Replay(d, g, before).stacks
    ensures |stacks'| == 16 && Seated(before + [x]) && |d.down| == 16
    ensures Replay(d, g, before + [x]).ok <==> Replay(d, g, before).ok && out == []
    ensures Replay(d, g, before + [x]).ok ==>
      Replay(d, g, before + [x]).stacks == if |before| % 2 == 1 then TurnedAll(stacks', d) else stacks'
  {
    assert |d.down| == 16;
    hide MayPlay, Tops, Taken, ValidDeal, Replay, TurnedAll, OpenTrick;
    ReplaySnoc(d, g, before, x);
    stacks', out := AuditCard(d, g, stacks, trick, x);
  }

  /** The cards of one trick, then the bare stacks turned when it was a full one. */
  method AuditTrick(d: Deal, g: Game, stacks: seq<Stack>, cards: seq<Play>, ghost before: seq<Play>)
      returns (stacks': seq<Stack>, out: seq<Complaint>)
    requires ValidDeal(d) && |stacks| == 16 && 1 <= |cards| <= 2 && Seated(cards) && Seated(before) && |before| % 2 == 0
    requires Replay(d, g, before).ok ==> stacks == Replay(d, g, before).stacks
    ensures Seated(before + cards) && |stacks'| == 16
    ensures Replay(d, g, before + cards).ok <==> Replay(d, g, before).ok && out == []
    ensures Replay(d, g, before + cards).ok ==> stacks' == Replay(d, g, before + cards).stacks
  {
    hide ValidDeal, Replay, TurnedAll, OpenTrick;
    FirstOpen(before, cards[0]);
    stacks', out := AuditNext(d, g, stacks, [], cards[0], before);
    if |cards| == 2 {
      var bad;
      assert before + cards == before + [cards[0]] + [cards[1]];
      stacks', bad := AuditNext(d, g, stacks', [cards[0]], cards[1], before + [cards[0]]);
      out := out + bad;
      stacks' := Flipped(stacks', d);
    } else {
      assert cards == [cards[0]];
    }
  }

  /** Every bare stack turned up. */
  method Flipped(stacks: seq<Stack>, d: Deal) returns (r: seq<Stack>)
    requires |stacks| == |d.down| == 16
    ensures r == TurnedAll(stacks, d) && |r| == 16
  {
    r := stacks;
    for p := 0 to 16
      invariant |r| == 16 && forall q :: 0 <= q < 16 ==>
        r[q] == if q < p && stacks[q] == Stack(None, true) then Stack(Some(d.down[q]), false) else stacks[q]
    {
      if r[p].top.None? && r[p].under { r := r[p := Stack(Some(d.down[p]), false)]; }
    }
  }

  lemma FirstOpen(before: seq<Play>, x: Play)
    requires |before| % 2 == 0
    ensures OpenTrick(before) == [] && OpenTrick(before + [x]) == [x] && |before + [x]| % 2 == 1
  {
  }

  method Audit(s: State, d: Deal) returns (out: seq<Complaint>)
    requires Sized(s) && (forall k :: 0 <= k < |s.tricks| ==> TrickOk(s.tricks[k])) && Seated(Plays(s))
    requires Seated(s.trick)
    ensures out == [] <==> Clean(s, d)
  {
    hide TopsFit, Replay, TrickOk;
    out := [];
    if s.contract == None { return; }
    if !ValidDeal(d) { return [Complaint(-1, WrongDeck)]; }
    var g := s.contract.value;
    out := AuditStacks(s.stacks, d);
    hide ValidDeal;
    ghost var open := out == [];
    var stacks := Dealt(d);
    ReplayStarts(d, g);
    for i := 0 to |s.tricks|
      invariant |stacks| == 16 && Seated(Flat(s.tricks[..i])) && |Flat(s.tricks[..i])| % 2 == 0
      invariant out == [] <==> open && Replay(d, g, Flat(s.tricks[..i])).ok
      invariant Replay(d, g, Flat(s.tricks[..i])).ok ==> stacks == Replay(d, g, Flat(s.tricks[..i])).stacks
    {
      var bad;
      NextTrick(s.tricks, i);
      stacks, bad := AuditTrick(d, g, stacks, s.tricks[i].cards, Flat(s.tricks[..i]));
      out := out + bad;
    }
    assert s.tricks[..|s.tricks|] == s.tricks;
    if s.trick != [] {
      var bad;
      stacks, bad := AuditTrick(d, g, stacks, s.trick, Flat(s.tricks));
      out := out + bad;
    } else {
      assert Plays(s) == Flat(s.tricks);
    }
  }

  lemma ReplayStarts(d: Deal, g: Game)
    requires ValidDeal(d)
    ensures Replay(d, g, []) == Replayed(Dealt(d), true)
  {
  }

  lemma NextTrick(tricks: seq<Trick>, i: nat)
    requires i < |tricks| && TrickOk(tricks[i]) && |Flat(tricks[..i])| % 2 == 0 && Seated(Flat(tricks[..i]))
    ensures Flat(tricks[..i + 1]) == Flat(tricks[..i]) + tricks[i].cards && |tricks[i].cards| == 2
    ensures Seated(tricks[i].cards)
    ensures |Flat(tricks[..i + 1])| % 2 == 0
  {
    assert tricks[..i + 1] == tricks[..i] + [tricks[i]];
    FlatSnoc(tricks[..i], tricks[i]);
  }

  // ---------- every truthful run ----------

  lemma {:induction false} RunFollows(d: Deal, dealer: int, nullRule: bool, kontraRule: bool, acts: seq<Action>)
    requires ValidDeal(d) && Run(Start(dealer, nullRule, kontraRule), acts).Ok?
    requires TruthfulRun(Start(dealer, nullRule, kontraRule), d, acts)
    ensures var s := Run(Start(dealer, nullRule, kontraRule), acts).state; Inv(s, d) && Follows(s, d)
    decreases |acts|
  {
    var s0 := Start(dealer, nullRule, kontraRule);
    StartInv(d, dealer, nullRule, kontraRule);
    if acts == [] {
      assert Plays(s0) == [];
      hide ValidDeal;
    } else {
      hide ValidDeal, Start, Follows, Inv, Apply, Truthful;
      var most := acts[..|acts| - 1];
      RunFollows(d, dealer, nullRule, kontraRule, most);
      StepKeeps(Run(s0, most).state, d, acts[|acts| - 1]);
      StepFollows(Run(s0, most).state, d, acts[|acts| - 1]);
    }
  }

  /** The audit of every truthful run, at any moment of it, is clean. */
  lemma HonestIsClean(d: Deal, dealer: int, nullRule: bool, kontraRule: bool, acts: seq<Action>)
    requires ValidDeal(d) && Run(Start(dealer, nullRule, kontraRule), acts).Ok?
    requires TruthfulRun(Start(dealer, nullRule, kontraRule), d, acts)
    ensures var s := Run(Start(dealer, nullRule, kontraRule), acts).state; Sized(s) && Seated(Plays(s)) && Clean(s, d)
  {
    RunFollows(d, dealer, nullRule, kontraRule, acts);
    var s := Run(Start(dealer, nullRule, kontraRule), acts).state;
    hide Start, Run, TruthfulRun, Replay, ValidDeal;
    if s.contract.Some? { FitTops(s, d); }
  }

  lemma FitTops(s: State, d: Deal)
    requires ValidDeal(d) && Inv(s, d) && s.contract.Some?
    ensures TopsFit(s.stacks, d)
  {
    assert StacksFit(d, s.stacks, Plays(s));
    hide WasPlayed, ValidDeal;
    forall p | 0 <= p < 16
      ensures s.stacks[p].top.Some? ==> s.stacks[p].top.value == if s.stacks[p].under then d.up[p] else d.down[p]
    {
      assert StackFits(d, s.stacks[p], p, Plays(s));
    }
  }

  /** Each action turns up the deal's card where one is owed, and is the automatic move otherwise. */
  ghost predicate ByItself(s: State, d: Deal, acts: seq<Action>) {
    forall i :: 0 <= i < |acts| ==> AutoAt(Run(s, acts[..i]), d, acts[i])
  }

  ghost predicate AutoAt(r: Outcome, d: Deal, a: Action) {
    && r.Ok? && Sized(r.state) && ValidDeal(d)
    && if Owes(r.state) then a.TurnUp? && Truthful(r.state, d, a)
       else 0 <= Turn(r.state) < 2 && Auto(r.state, Turn(r.state)) == Some(a)
  }

  /** A card has to be turned up before anyone moves. */
  predicate Owes(s: State) { s.phase == Dealing || (s.phase == Playing && s.flip != []) }

  /**
    From any truthful point on, turning up what is asked for and moving for everybody ends the hand with a clean
    audit.
   */
  ghost function PlayOut(s: State, d: Deal): (acts: seq<Action>)
    requires ValidDeal(d) && Inv(s, d) && Follows(s, d)
    ensures Run(s, acts).Ok? && Inv(Run(s, acts).state, d) && Follows(Run(s, acts).state, d)
    ensures Run(s, acts).state.phase == Done
    ensures ByItself(s, d, acts)
    decreases Ahead(s)
  {
    if s.phase == Done then []
    else
      hide ValidDeal, Inv, Follows, Apply, Ahead, Truthful, Run, ByItself, Auto, Owes;
      var a := NextMove(s, d);
      StepKeeps(s, d, a);
      StepFollows(s, d, a);
      StepCosts(s, d, a);
      AheadBounds(Apply(s, a).state, d);
      var rest := PlayOut(Apply(s, a).state, d);
      RunCons(s, a, rest);
      OnItsOwn(s, d, a, rest);
      [a] + rest
  }

  lemma OnItsOwn(s: State, d: Deal, a: Action, rest: seq<Action>)
    requires AutoAt(Ok(s), d, a) && Sized(s) && Apply(s, a).Ok? && ByItself(Apply(s, a).state, d, rest)
    ensures ByItself(s, d, [a] + rest)
  {
    hide AutoAt, Apply;
    var all := [a] + rest;
    forall i | 0 <= i < |all|
      ensures AutoAt(Run(s, all[..i]), d, all[i])
    {
      if i > 0 {
        assert all[..i] == [a] + rest[..i - 1];
        RunCons(s, a, rest[..i - 1]);
      }
    }
  }

  /** What the table does next: open a card, or move for the seat on turn. */
  ghost function NextMove(s: State, d: Deal): (a: Action)
    requires ValidDeal(d) && Inv(s, d) && s.phase != Done
    ensures Sized(s) && Apply(s, a).Ok? && Truthful(s, d, a) && AutoAt(Ok(s), d, a)
  {
    hide ValidDeal, PlayInv, Apply, OnceEach, Auto, DealFits;
    if s.phase == Dealing then
      SomeMissing(s, d);
      OpenAt(s, d, FirstMissing(s.stacks, 0))
    else if s.phase == Playing && s.flip != [] then
      FlipIsBare(s, d, s.flip[0]);
      OpenAt(s, d, s.flip[0])
    else
      AutoAccepted(s, d);
      Auto(s, Turn(s)).value
  }

  /** Opening the card that has to be opened on a stack. */
  ghost function OpenAt(s: State, d: Deal, p: nat): (a: Action)
    requires ValidDeal(d) && Inv(s, d) && p < 16 && (s.phase == Dealing || s.phase == Playing)
    requires if s.phase == Dealing then s.stacks[p].top.None? else p in s.flip
    ensures Sized(s) && Apply(s, a).Ok? && Truthful(s, d, a) && a.TurnUp?
  {
    var r := Reveal(p / 8, p % 8);
    assert 8 * r.seat + r.i == p;
    hide ValidDeal, PlayInv, Apply, OnceEach, DealFits;
    RevealAccepted(s, d, r);
    TurnUp(r.seat, r.i, TrueCard(s, d, r))
  }

  function FirstMissing(stacks: seq<Stack>, from: nat): (p: nat)
    requires exists q :: from <= q < |stacks| && stacks[q].top.None?
    ensures from <= p < |stacks| && stacks[p].top.None?
    decreases |stacks| - from
  {
    if stacks[from].top.None? then from else FirstMissing(stacks, from + 1)
  }

  lemma SomeMissing(s: State, d: Deal)
    requires ValidDeal(d) && Inv(s, d) && s.phase == Dealing
    ensures exists q :: 0 <= q < |s.stacks| && s.stacks[q].top.None?
  {
  }
}
