/** Whole hands of Bauernskat against a hidden deal: progress, bounds and the audit. */
module BauernskatRuns {
  import opened Options
  import opened BauernskatRules

  /** The face-up row and the face-down row, all thirty-two cards different. */
  datatype Deal = Deal(up: seq<Card>, down: seq<Card>)

  predicate ValidDeal(d: Deal) {
    && |d.up| == |d.down| == 16
    && (forall p, q :: 0 <= p < q < 16 ==> d.up[p] != d.up[q] && d.down[p] != d.down[q])
    && (forall p, q :: 0 <= p < 16 && 0 <= q < 16 ==> d.up[p] != d.down[q])
  }

  // ---------- the stacks against the deal ----------

  /** A stack shows what the deal says, and exactly the cards gone from it have been played. */
  predicate StackFits(d: Deal, st: Stack, p: nat, ps: seq<Play>)
    requires ValidDeal(d) && p < 16
  {
    && (st.top.Some? ==> st.top.value == if st.under then d.up[p] else d.down[p])
    && (WasPlayed(ps, d.up[p]) <==> !st.under || st.top.None?)
    && (WasPlayed(ps, d.down[p]) <==> !st.under && st.top.None?)
  }

  predicate StacksFit(d: Deal, stacks: seq<Stack>, ps: seq<Play>)
    requires ValidDeal(d)
  {
    |stacks| == 16 && forall p :: 0 <= p < 16 ==> StackFits(d, stacks[p], p, ps)
  }

  /** While dealing a stack shows its face-up card or nothing. */
  predicate DealFits(d: Deal, stacks: seq<Stack>)
    requires ValidDeal(d)
  {
    |stacks| == 16 && forall p :: 0 <= p < 16 ==>
      stacks[p].under && (stacks[p].top.Some? ==> stacks[p].top.value == d.up[p])
  }

  /** How many cards of a stack are gone. */
  function Gone(st: Stack): nat { (if st.under then 0 else 1) + if st.top.None? then 1 else 0 }

  function GoneFrom(stacks: seq<Stack>, from: nat, end: nat): nat
    requires from <= end <= |stacks|
  {
    if from == end then 0 else GoneFrom(stacks, from, end - 1) + Gone(stacks[end - 1])
  }

  lemma {:induction false} GoneChanged(stacks: seq<Stack>, p: nat, st: Stack, from: nat, end: nat)
    requires from <= end <= |stacks| && p < |stacks|
    ensures GoneFrom(stacks[p := st], from, end) == GoneFrom(stacks, from, end) + if from <= p < end then
      Gone(st) - Gone(stacks[p]) else 0
    decreases end
  {
    if from < end { GoneChanged(stacks, p, st, from, end - 1); }
  }

  // ---------- the invariant of play ----------

  predicate TrickOk(t: Trick) {
    |t.cards| == 2 && 0 <= t.cards[0].seat < 2 && t.cards[1].seat == 1 - t.cards[0].seat && t.lead == t.cards[0].seat
  }

  predicate FlipsOk(stacks: seq<Stack>, flip: seq<nat>, trick: seq<Play>)
    requires |stacks| == 16
  {
    && (forall i :: 0 <= i < |flip| ==> flip[i] < 16 && stacks[flip[i]] == Stack(None, true))
    && (forall i, j :: 0 <= i < j < |flip| ==> flip[i] < flip[j])
    && (trick != [] ==> flip == [])
    && (forall p :: 0 <= p < 16 && stacks[p] == Stack(None, true) ==>
       p in flip || (trick != [] && p / 8 == trick[0].seat))
  }

  /** Each seat has played to every trick, and the first one to the open trick. */
  predicate CountsOk(stacks: seq<Stack>, ps: seq<Play>, tricks: nat, trick: seq<Play>)
    requires |stacks| == 16
  {
    forall q :: 0 <= q < 2 ==>
      GoneFrom(stacks, 8 * q, 8 * q + 8) == NumberBy(ps, q) == tricks + if trick != [] && trick[0].seat == q then 1
        else 0
  }

  predicate TableOk(s: State) {
    && 0 <= s.lead < 2 && |s.trick| < 2 && |s.tricks| < 16
    && (forall k :: 0 <= k < |s.tricks| ==> TrickOk(s.tricks[k]))
    && (if s.trick == [] then s.next == s.lead else s.trick[0].seat == s.lead && s.next == 1 - s.lead)
  }

  predicate PlayInv(s: State, d: Deal)
    requires ValidDeal(d) && |s.stacks| == 16
  {
    && s.contract.Some? && TableOk(s)
    && StacksFit(d, s.stacks, Plays(s)) && FlipsOk(s.stacks, s.flip, s.trick)
       && CountsOk(s.stacks, Plays(s), |s.tricks|, s.trick)
  }

  predicate OnceEach(ps: seq<Play>) { forall i, j :: 0 <= i < j < |ps| ==> ps[i].card != ps[j].card }

  predicate Inv(s: State, d: Deal)
    requires ValidDeal(d)
  {
    && Sized(s) && 0 <= s.declarer < 2 && s.kontra <= 2 && OnceEach(Plays(s)) && |Plays(s)| <= 32
    && match s.phase
       case Dealing =>
         DealFits(d, s.stacks) && (exists p :: 0 <= p < 16 && s.stacks[p].top.None?) && s.tricks == [] && s.trick == []
           && s.flip == [] && s.contract == None
       case Declaring =>
         DealFits(d, s.stacks) && (forall p :: 0 <= p < 16 ==> s.stacks[p].top.Some?) && s.tricks == [] && s.trick == []
           && s.flip == [] && s.contract == None
       case Playing => PlayInv(s, d)
       case Done =>
         s.contract.Some? && s.trick == [] && (forall k :: 0 <= k < |s.tricks| ==> TrickOk(s.tricks[k]))
           && |s.tricks| <= 16 && StacksFit(d, s.stacks, Plays(s))
  }

  /** A turned card is the one the deal has there. */
  predicate Truthful(s: State, d: Deal, a: Action)
    requires ValidDeal(d)
  {
    a.TurnUp? && 0 <= a.seat < 2 && 0 <= a.i < 8 ==> a.card == if s.phase == Dealing then d.up[8 * a.seat + a.i]
      else d.down[8 * a.seat + a.i]
  }

  lemma StartInv(d: Deal, dealer: int, nullRule: bool, kontraRule: bool)
    requires ValidDeal(d)
    ensures Inv(Start(dealer, nullRule, kontraRule), d)
  {
    assert Start(dealer, nullRule, kontraRule).stacks[0].top.None?;
  }

  // ---------- reveals ----------

  lemma DealtTurn(s: State, d: Deal, seat: int, i: int, c: Card)
    requires ValidDeal(d) && Inv(s, d) && s.phase == Dealing && 0 <= seat < 2 && 0 <= i < 8 && c == d.up[8 * seat + i]
    ensures ApplyTurnUp(s, seat, i, c).Ok? <==> s.stacks[8 * seat + i].top.None?
    ensures ApplyTurnUp(s, seat, i, c).Ok? ==> Inv(ApplyTurnUp(s, seat, i, c).state, d)
  {
    var p := 8 * seat + i;
    assert Plays(s) == [];
    if s.stacks[p].top.None? {
      assert !Visible(s.stacks, c);
    }
  }

  /** Whatever is to be turned up now, its true card is accepted. */
  lemma FlipAccepted(s: State, d: Deal, seat: int, i: int)
    requires ValidDeal(d) && Inv(s, d) && s.phase == Playing && 0 <= seat < 2 && 0 <= i < 8 && 8 * seat + i in s.flip
    ensures ApplyTurnUp(s, seat, i, d.down[8 * seat + i]).Ok?
  {
    var p := 8 * seat + i;
    var c := d.down[p];
    assert StackFits(d, s.stacks[p], p, Plays(s));
    assert s.stacks[p] == Stack(None, true);
    forall q | 0 <= q < 16 ensures s.stacks[q].top != Some(c) {
      assert StackFits(d, s.stacks[q], q, Plays(s));
    }
    hide StackFits, CountsOk;
  }

  lemma {:induction false} DroppedMembers(flip: seq<nat>, p: nat)
    requires p in flip && forall i, j :: 0 <= i < j < |flip| ==> flip[i] < flip[j]
    ensures forall i, j :: 0 <= i < j < |Dropped(flip, p)| ==> Dropped(flip, p)[i] < Dropped(flip, p)[j]
    ensures forall q :: q in Dropped(flip, p) <==> q in flip && q != p
  {
    var n := |flip| - 1;
    assert flip == flip[..n] + [flip[n]];
    if flip[n] != p {
      DroppedMembers(flip[..n], p);
      var r := Dropped(flip[..n], p);
      forall i | 0 <= i < |r| ensures r[i] < flip[n] { assert r[i] in r; }
    }
  }

  lemma FlipStacks(d: Deal, stacks: seq<Stack>, ps: seq<Play>, p: nat)
    requires ValidDeal(d) && StacksFit(d, stacks, ps) && p < 16 && stacks[p] == Stack(None, true)
    ensures StacksFit(d, stacks[p := Stack(Some(d.down[p]), false)], ps)
  {
    assert StackFits(d, stacks[p], p, ps);
    assert StackFits(d, Stack(Some(d.down[p]), false), p, ps);
    hide StackFits;
  }

  lemma FlipCounts(stacks: seq<Stack>, ps: seq<Play>, tricks: nat, p: nat, c: Card)
    requires |stacks| == 16 && CountsOk(stacks, ps, tricks, []) && p < 16 && stacks[p] == Stack(None, true)
    ensures CountsOk(stacks[p := Stack(Some(c), false)], ps, tricks, [])
  {
    GoneChanged(stacks, p, Stack(Some(c), false), 0, 8);
    GoneChanged(stacks, p, Stack(Some(c), false), 8, 16);
    hide GoneFrom, NumberBy;
    forall q | 0 <= q < 2
      ensures GoneFrom(stacks[p := Stack(Some(c), false)], 8 * q, 8 * q + 8) == GoneFrom(stacks, 8 * q, 8 * q + 8)
    {
      if q == 0 { } else { assert q == 1; }
    }
  }

  lemma FlipKeeps(s: State, d: Deal, p: nat)
    requires ValidDeal(d) && |s.stacks| == 16 && PlayInv(s, d) && p in s.flip
    ensures p < 16 && PlayInv(s.(flip := Dropped(s.flip, p), stacks := s.stacks[p := Stack(Some(d.down[p]), false)]), d)
  {
    assert p < 16 && s.stacks[p] == Stack(None, true);
    assert s.trick == [];
    hide ValidDeal, StacksFit, FlipsOk, CountsOk, Dropped;
    FlipStacks(d, s.stacks, Plays(s), p);
    FlipFlips(s.stacks, s.flip, p, Stack(Some(d.down[p]), false));
    FlipCounts(s.stacks, Plays(s), |s.tricks|, p, d.down[p]);
    assert Plays(s.(flip := Dropped(s.flip, p), stacks := s.stacks[p := Stack(Some(d.down[p]), false)])) == Plays(s);
    hide Flat;
  }

  lemma FlipFlips(stacks: seq<Stack>, flip: seq<nat>, p: nat, st: Stack)
    requires |stacks| == 16 && FlipsOk(stacks, flip, []) && p in flip && p < 16 && !st.under
    ensures FlipsOk(stacks[p := st], Dropped(flip, p), [])
  {
    DroppedMembers(flip, p);
    forall i | 0 <= i < |Dropped(flip, p)|
      ensures Dropped(flip, p)[i] < 16 && stacks[p := st][Dropped(flip, p)[i]] == Stack(None, true)
    {
      assert Dropped(flip, p)[i] in Dropped(flip, p);
    }
    hide Dropped;
  }

  // ---------- plays ----------

  lemma PlayedSnoc(ps: seq<Play>, x: Play, c: Card)
    ensures WasPlayed(ps + [x], c) <==> WasPlayed(ps, c) || c == x.card
  {
    var all := ps + [x];
    if WasPlayed(ps, c) {
      var k :| 0 <= k < |ps| && ps[k].card == c;
      assert all[k].card == c;
    }
    if c == x.card { assert all[|ps|].card == c; }
  }

  /** The played card is gone from its stack, and from nowhere else. */
  lemma TakenFits(d: Deal, stacks: seq<Stack>, ps: seq<Play>, p: nat, x: Play)
    requires ValidDeal(d) && StacksFit(d, stacks, ps) && p < 16 && stacks[p].top == Some(x.card)
    ensures StacksFit(d, stacks[p := stacks[p].(top := None)], ps + [x])
  {
    var stacks' := stacks[p := stacks[p].(top := None)];
    forall q | 0 <= q < 16 ensures StackFits(d, stacks'[q], q, ps + [x]) {
      assert StackFits(d, stacks[q], q, ps) && StackFits(d, stacks[p], p, ps);
      PlayedSnoc(ps, x, d.up[q]);
      PlayedSnoc(ps, x, d.down[q]);
      hide WasPlayed;
    }
  }

  lemma NumberSnoc(ps: seq<Play>, x: Play, q: int)
    ensures NumberBy(ps + [x], q) == NumberBy(ps, q) + if x.seat == q then 1 else 0
  {
    assert (ps + [x])[..|ps|] == ps;
  }

  lemma TakenCounts(stacks: seq<Stack>, ps: seq<Play>, tricks: nat, trick: seq<Play>, p: nat, x: Play)
    requires |stacks| == 16 && CountsOk(stacks, ps, tricks, trick) && p < 16 && stacks[p].top.Some? && x.seat == p / 8
    requires |trick| < 2
    requires trick != [] ==> trick[0].seat == 1 - x.seat
    ensures var stacks' := stacks[p := stacks[p].(top := None)];
      if trick == [] then CountsOk(stacks', ps + [x], tricks, [x]) else CountsOk(stacks', ps + [x], tricks + 1, [])
  {
    var st := stacks[p].(top := None);
    GoneChanged(stacks, p, st, 0, 8);
    GoneChanged(stacks, p, st, 8, 16);
    NumberSnoc(ps, x, 0);
    NumberSnoc(ps, x, 1);
    hide GoneFrom, NumberBy;
    forall q | 0 <= q < 2 ensures GoneFrom(stacks[p := st], 8 * q, 8 * q + 8) ==
      GoneFrom(stacks, 8 * q, 8 * q + 8) + (if p / 8 == q then 1 else 0)
    {
      assert 8 * q <= p < 8 * q + 8 <==> p / 8 == q;
      if q == 0 { } else { assert q == 1; }
    }
  }

  lemma TakenFlips(stacks: seq<Stack>, p: nat, x: Play)
    requires |stacks| == 16 && FlipsOk(stacks, [], []) && p < 16 && x.seat == p / 8
    ensures FlipsOk(stacks[p := stacks[p].(top := None)], [], [x])
  {
  }

  lemma BareFlips(stacks: seq<Stack>)
    requires |stacks| == 16
    ensures FlipsOk(stacks, Bare(stacks, |stacks|), [])
  {
    var r := Bare(stacks, |stacks|);
    forall i | 0 <= i < |r| ensures r[i] < 16 && stacks[r[i]] == Stack(None, true) { assert r[i] in r; }
  }

  lemma FlatSnoc(tricks: seq<Trick>, t: Trick)
    ensures Flat(tricks + [t]) == Flat(tricks) + t.cards
  {
    assert (tricks + [t])[..|tricks|] == tricks;
  }

  lemma {:induction false} FlatSize(tricks: seq<Trick>)
    requires forall k :: 0 <= k < |tricks| ==> TrickOk(tricks[k])
    ensures |Flat(tricks)| == 2 * |tricks|
  {
    if tricks != [] {
      FlatSize(tricks[..|tricks| - 1]);
      assert TrickOk(tricks[|tricks| - 1]);
    }
  }

  /** What an accepted play changes. */
  lemma PlayFrame(s: State, seat: int, c: Card)
    requires Sized(s) && s.phase == Playing && 0 <= seat < 2 && ApplyPlay(s, seat, c).Ok?
    ensures var s', p, x := ApplyPlay(s, seat, c).state, StackOf(s.stacks, seat, c, 8), Play(seat, c);
      && 0 <= p < 16 && p / 8 == seat && s.stacks[p].top == Some(c) && s.flip == [] && !WasPlayed(Plays(s), c)
      && MayPlay(s.contract.value, Tops(s.stacks, seat), c, s.trick)
      && s'.stacks == s.stacks[p := s.stacks[p].(top := None)] && s'.contract == s.contract && s'.kontra == s.kontra
         && s'.declarer == s.declarer
      && (s.trick == [] ==>
            && s'.trick == [x] && s'.tricks == s.tricks && s'.flip == [] && s'.lead == s.lead
            && s'.next == 1 - seat && s'.phase == Playing)
      && (s.trick != [] ==>
            && s'.trick == []
            && s'.tricks == s.tricks + [Trick(s.lead, s.trick + [x], TrickWinner(s.contract.value, s.trick + [x]))])
  {
    hide StackOf, WasPlayed, MayPlay, TrickWinner, Bare, Tops, Plays;
    StackInRange(s.stacks, seat, c);
  }

  lemma PlaySeen(s: State, seat: int, c: Card)
    requires Sized(s) && s.phase == Playing && 0 <= seat < 2 && ApplyPlay(s, seat, c).Ok?
    ensures Plays(ApplyPlay(s, seat, c).state) == Plays(s) + [Play(seat, c)]
  {
    hide StackOf, WasPlayed, MayPlay, TrickWinner, Tops, ApplyPlay;
    PlayFrame(s, seat, c);
    var s', x := ApplyPlay(s, seat, c).state, Play(seat, c);
    if s.trick != [] { FlatSnoc(s.tricks, s'.tricks[|s.tricks|]); }
    assert Flat(s.tricks) + s.trick + [x] == Flat(s.tricks) + (s.trick + [x]);
  }

  lemma StackInRange(stacks: seq<Stack>, seat: int, c: Card)
    requires |stacks| == 16 && 0 <= seat < 2
    ensures var p := StackOf(stacks, seat, c, 8); p == -1 || (0 <= p < 16 && p / 8 == seat && stacks[p].top == Some(c))
  {
    var p := StackOf(stacks, seat, c, 8);
    hide StackOf;
  }

  /** Closing a trick: done, or the winner leads and every bare stack waits to be turned. */
  lemma CloseFrame(s: State, seat: int, c: Card)
    requires Sized(s) && s.phase == Playing && 0 <= seat < 2 && ApplyPlay(s, seat, c).Ok? && s.trick != []
    ensures var s', w := ApplyPlay(s, seat, c).state, TrickWinner(s.contract.value, s.trick + [Play(seat, c)]);
      if |s.tricks| + 1 == 16 || (s.contract.value.NullGame? && w == s.declarer) then s'.phase == Done
      else s'.phase == Playing && s'.flip == Bare(s'.stacks, |s'.stacks|) && s'.lead == w && s'.next == w
  {
    hide StackOf, WasPlayed, MayPlay, TrickWinner, Bare, Tops, Plays;
    StackInRange(s.stacks, seat, c);
  }

  lemma OnceSnoc(ps: seq<Play>, x: Play)
    requires OnceEach(ps) && !WasPlayed(ps, x.card)
    ensures OnceEach(ps + [x])
  {
  }

  lemma WinnerSits(g: Game, cards: seq<Play>)
    requires |cards| == 2 && 0 <= cards[0].seat < 2 && 0 <= cards[1].seat < 2
    ensures 0 <= TrickWinner(g, cards) < 2
  {
    hide Power, SuitOf;
  }

  lemma PlayKeeps(s: State, d: Deal, seat: int, c: Card)
    requires ValidDeal(d) && Inv(s, d) && s.phase == Playing && seat == s.next && ApplyPlay(s, seat, c).Ok?
    ensures Inv(ApplyPlay(s, seat, c).state, d)
  {
    hide StackFits, WasPlayed, FlipsOk, CountsOk, ApplyPlay, StacksFit, OnceEach;
    hide ValidDeal, MayPlay, TrickWinner, Tops, StackOf, Bare, Plays;
    var s', p, x := ApplyPlay(s, seat, c).state, StackOf(s.stacks, seat, c, 8), Play(seat, c);
    PlayFrame(s, seat, c);
    PlaySeen(s, seat, c);
    TakenFits(d, s.stacks, Plays(s), p, x);
    TakenCounts(s.stacks, Plays(s), |s.tricks|, s.trick, p, x);
    OnceSnoc(Plays(s), x);
    PlaysSize(s);
    if s.trick == [] {
      TakenFlips(s.stacks, p, x);
    } else {
      CloseFrame(s, seat, c);
      WinnerSits(s.contract.value, s.trick + [x]);
      BareFlips(s'.stacks);
      TricksOk(s, x);
    }
  }

  lemma TricksOk(s: State, x: Play)
    requires TableOk(s) && s.trick != [] && x.seat == s.next && s.contract.Some?
    ensures var tricks := s.tricks + [Trick(s.lead, s.trick + [x], TrickWinner(s.contract.value, s.trick + [x]))];
      forall k :: 0 <= k < |tricks| ==> TrickOk(tricks[k])
  {
    hide TrickWinner;
  }

  lemma PlaysSize(s: State)
    requires TableOk(s)
    ensures |Plays(s)| == 2 * |s.tricks| + |s.trick| < 32
  {
    FlatSize(s.tricks);
    hide Flat, TrickOk;
  }

  // ---------- every step ----------

  lemma TurnKeeps(s: State, d: Deal, seat: int, i: int, c: Card)
    requires ValidDeal(d) && Inv(s, d) && Truthful(s, d, TurnUp(seat, i, c)) && 0 <= seat < 2
    requires ApplyTurnUp(s, seat, i, c).Ok?
    ensures Inv(ApplyTurnUp(s, seat, i, c).state, d)
  {
    if s.phase == Dealing {
      DealtTurn(s, d, seat, i, c);
    } else {
      hide PlayInv, Visible, WasPlayed, OnceEach, Dropped, ValidDeal;
      var p := 8 * seat + i;
      FlipKeeps(s, d, p);
      var s' := ApplyTurnUp(s, seat, i, c).state;
      assert s' == s.(flip := Dropped(s.flip, p), stacks := s.stacks[p := Stack(Some(d.down[p]), false)]);
      assert Plays(s') == Plays(s);
    }
  }

  lemma DeclareKeeps(s: State, d: Deal, g: Game)
    requires ValidDeal(d) && Inv(s, d) && s.phase == Declaring
    ensures Inv(s.(contract := Some(g), phase := Playing, next := s.declarer, lead := s.declarer, trick := []), d)
  {
    var s' := s.(contract := Some(g), phase := Playing, next := s.declarer, lead := s.declarer, trick := []);
    assert Plays(s) == [] && Plays(s') == [];
    FullStacks(d, s.stacks);
    hide StacksFit, CountsOk, DealFits;
    assert FlipsOk(s.stacks, [], []);
  }

  lemma FullStacks(d: Deal, stacks: seq<Stack>)
    requires ValidDeal(d) && DealFits(d, stacks) && forall p :: 0 <= p < 16 ==> stacks[p].top.Some?
    ensures StacksFit(d, stacks, []) && CountsOk(stacks, [], 0, [])
  {
    NothingGone(stacks, 0, 8);
    NothingGone(stacks, 8, 16);
    hide GoneFrom, ValidDeal;
    forall q | 0 <= q < 2 ensures GoneFrom(stacks, 8 * q, 8 * q + 8) == 0 { if q == 0 { } else { assert q == 1; } }
  }

  lemma {:induction false} NothingGone(stacks: seq<Stack>, from: nat, end: nat)
    requires from <= end <= |stacks| && forall p :: from <= p < end ==> Gone(stacks[p]) == 0
    ensures GoneFrom(stacks, from, end) == 0
    decreases end
  {
    if from < end { NothingGone(stacks, from, end - 1); }
  }

  lemma StepKeeps(s: State, d: Deal, a: Action)
    requires ValidDeal(d) && Inv(s, d) && Apply(s, a).Ok? && Truthful(s, d, a)
    ensures Inv(Apply(s, a).state, d)
  {
    match a
    case TurnUp(seat, i, c) =>
      hide ApplyTurnUp, ValidDeal;
      TurnKeeps(s, d, seat, i, c);
    case PlayCard(seat, c) =>
      hide ApplyPlay, ValidDeal;
      PlayKeeps(s, d, seat, c);
    case Declare(seat, g) => DeclareKeeps(s, d, g);
    case Kontra(seat) => SaysKeep(s, d);
    case Re(seat) => SaysKeep(s, d);
  }

  lemma SaysKeep(s: State, d: Deal)
    requires ValidDeal(d) && Inv(s, d) && s.kontra < 2 && s.phase == Playing
    ensures Inv(s.(kontra := s.kontra + 1), d)
  {
    hide StacksFit, FlipsOk, CountsOk, OnceEach, ValidDeal;
    assert Plays(s.(kontra := s.kontra + 1)) == Plays(s);
    hide Flat;
  }
}
