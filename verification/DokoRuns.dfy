/** Whole hands of Doppelkopf: every sequence of accepted actions. */
module DokoRuns {
  import opened Options
  import opened DokoCards
  import opened DokoRules
  import opened DokoGame

  /** The state after a sequence of actions, if every one of them was accepted. */
  function Run(s: State, acts: seq<Action>): Outcome {
    if acts == [] then Ok(s)
    else
      var before := Run(s, acts[..|acts| - 1]);
      if before.Fail? then before
      else if !Sized(before.state) then Fail(BadFormat)
      else Apply(before.state, acts[|acts| - 1])
  }

  /** The first action can be taken off the front as well. */
  lemma {:induction false} RunCons(s: State, a: Action, acts: seq<Action>)
    requires Sized(s) && Apply(s, a).Ok?
    ensures Run(s, [a] + acts) == Run(Apply(s, a).state, acts)
    decreases |acts|
  {
    hide Apply;
    var all := [a] + acts;
    if acts == [] {
      assert all[..0] == [];
    } else {
      assert all[..|all| - 1] == [a] + acts[..|acts| - 1];
      RunCons(s, a, acts[..|acts| - 1]);
    }
  }

  lemma {:induction false} RunKeeps(s: State, acts: seq<Action>)
    requires Inv(s) && Run(s, acts).Ok?
    ensures Inv(Run(s, acts).state)
  {
    hide Inv, Apply;
    if acts != [] {
      RunKeeps(s, acts[..|acts| - 1]);
      StepKeeps(Run(s, acts[..|acts| - 1]).state, acts[|acts| - 1]);
    }
  }

  // ---------- a finished hand ----------

  lemma {:induction false} FlatSize(tricks: seq<Trick>)
    requires forall k :: 0 <= k < |tricks| ==> TrickOk(tricks[k])
    ensures |Flat(tricks)| == 4 * |tricks|
  {
    if tricks != [] {
      var t := tricks[|tricks| - 1];
      assert TrickOk(t);
      hide TrickOk;
      FlatSize(tricks[..|tricks| - 1]);
    }
  }

  function TrickEyes(tricks: seq<Trick>): nat {
    if tricks == [] then 0 else TrickEyes(tricks[..|tricks| - 1]) + tricks[|tricks| - 1].eyes
  }

  lemma {:induction false} FlatEyes(tricks: seq<Trick>)
    requires forall k :: 0 <= k < |tricks| ==> TrickOk(tricks[k])
    ensures EyeSum(CardsOf(Flat(tricks))) == TrickEyes(tricks)
  {
    if tricks != [] {
      var most, t := tricks[..|tricks| - 1], tricks[|tricks| - 1];
      FlatEyes(most);
      assert TrickOk(t);
      assert CardsOf(Flat(most) + t.cards) == CardsOf(Flat(most)) + CardsOf(t.cards);
      hide EyeSum;
      EyeSumOf(CardsOf(Flat(most)), CardsOf(t.cards));
    }
  }

  /** A finished hand has played every card exactly twice, in twelve tricks that hold 240 eyes. */
  lemma FinishedHand(s: State)
    requires Inv(s) && s.phase == Finished
    ensures WholePack(CardsOf(Plays(s))) && |s.tricks| == 12 && TrickEyes(s.tricks) == 240
  {
    FlatSize(s.tricks);
    FlatEyes(s.tricks);
    hide TrickOk, Sides, TalkOk, Flat, Count, EyeSum;
    assert Plays(s) == Flat(s.tricks);
    FullPack(CardsOf(Plays(s)));
  }

  lemma FinishedRun(dealer: Seat, dulle: bool, noSpecials: bool, acts: seq<Action>)
    requires Run(Start(dealer, dulle, noSpecials), acts).Ok?
    requires Run(Start(dealer, dulle, noSpecials), acts).state.phase == Finished
    ensures var s := Run(Start(dealer, dulle, noSpecials), acts).state;
      Inv(s) && WholePack(CardsOf(Plays(s))) && |s.tricks| == 12 && TrickEyes(s.tricks) == 240
  {
    StartInv(dealer, dulle, noSpecials);
    hide Inv, Start, Run;
    RunKeeps(Start(dealer, dulle, noSpecials), acts);
    FinishedHand(Run(Start(dealer, dulle, noSpecials), acts).state);
  }

  // ---------- every hand ends ----------

  /** How many more actions can be accepted at most. */
  function Ahead(s: State): int {
    (match s.phase
     case Reserving => 8 - Place(s.dealer, s.ask)
     case Asking => 4 - Place(s.dealer, s.ask)
     case _ => 0)
    + (48 - 4 * |s.tricks| - |s.cards|) + (4 - s.re) + (4 - s.kontra)
  }

  lemma AheadNotNegative(s: State)
    requires Inv(s)
    ensures Ahead(s) >= 0
  {
    hide QueueOk, Unclaimed, TrickOk, PlayedOk, InOrder, AtMostTwice;
    if s.phase in {Reserving, Asking} { NextPlace(s.dealer, s.ask); }
  }

  lemma ReserveCosts(s: State, seat: int, v: Say)
    requires Inv(s) && 0 <= seat < 4 && ApplyReserve(s, seat, v).Ok?
    ensures Ahead(ApplyReserve(s, seat, v).state) < Ahead(s)
  {
    hide QueueOk, Unclaimed, TableOk, AtMostTwice, Sides, Place, Plays, QueueIndex, ApplyReserve;
    ReserveFrame(s, seat, v);
    SpeakersPass(s, seat, v);
  }

  /** A reservation passes the turn on. */
  predicate Passed(s: State, s': State) {
    match s'.phase
    case Reserving => s.phase == Reserving && Place(s.dealer, s'.ask) == Place(s.dealer, s.ask) + 1
    case Asking =>
      (s.phase == Reserving && 0 <= Place(s.dealer, s'.ask))
        || (s.phase == Asking && Place(s.dealer, s'.ask) > Place(s.dealer, s.ask))
    case _ => s.phase in {Reserving, Asking}
  }

  lemma SpeakersPass(s: State, seat: int, v: Say)
    requires Inv(s) && 0 <= seat < 4 && ApplyReserve(s, seat, v).Ok?
    ensures 0 <= s.ask < 4 && Place(s.dealer, s.ask) < 4 && Passed(s, ApplyReserve(s, seat, v).state)
  {
    ReserveTalk(s, seat, v);
    hide Place, TableOk, AtMostTwice, Sides, Plays, Unclaimed, QueueOk;
    NextPlace(s.dealer, s.ask);
    if s.phase == Reserving {
      var s' := ApplyReserve(s, seat, v).state;
      if s'.phase in {Reserving, Asking} { NextPlace(s.dealer, s'.ask); }
    } else {
      AskedNext(s, seat, v);
    }
  }

  lemma AskedNext(s: State, seat: int, v: Say)
    requires Inv(s) && 0 <= seat < 4 && ApplyReserve(s, seat, v).Ok? && s.phase == Asking
    ensures var s' := ApplyReserve(s, seat, v).state;
      s'.phase == Asking ==> Place(s.dealer, s'.ask) > Place(s.dealer, s.ask)
    ensures ApplyReserve(s, seat, v).state.phase != Reserving
  {
    hide Place, TableOk, AtMostTwice, Sides, Plays, Unclaimed;
    var i := QueueIndex(s.queue, seat);
    assert i >= 0 && i + 1 < |s.queue| ==> Place(s.dealer, s.queue[i]) < Place(s.dealer, s.queue[i + 1]);
  }

  /** Every accepted action uses up one of the moves ahead. */
  lemma StepCosts(s: State, a: Action)
    requires Inv(s) && Apply(s, a).Ok?
    ensures Ahead(Apply(s, a).state) < Ahead(s)
  {
    hide Place, QueueOk, Unclaimed, TableOk, AtMostTwice, Plays, ApplyReserve, ApplyPlay, Trumps, EyeSum, TrickWinner;
    match a
    case Reserve(seat, v) => ReserveCosts(s, seat, v);
    case Play(seat, card) =>
      SameTalk(s, seat, card);
      PlayFrame(s, seat, card);
    case Announce(seat, p, name) =>
  }

  lemma {:induction false} RunAhead(s: State, acts: seq<Action>)
    requires Inv(s) && Run(s, acts).Ok?
    ensures |acts| + Ahead(Run(s, acts).state) <= Ahead(s)
  {
    hide Inv, Apply, Ahead;
    if acts != [] {
      RunKeeps(s, acts[..|acts| - 1]);
      RunAhead(s, acts[..|acts| - 1]);
      StepCosts(Run(s, acts[..|acts| - 1]).state, acts[|acts| - 1]);
    }
  }

  /** No hand takes more than 66 accepted actions: 8 reservations, 48 cards and 10 calls. */
  lemma RunsEnd(dealer: Seat, dulle: bool, noSpecials: bool, acts: seq<Action>)
    requires Run(Start(dealer, dulle, noSpecials), acts).Ok?
    ensures |acts| <= 66
  {
    StartInv(dealer, dulle, noSpecials);
    var s := Start(dealer, dulle, noSpecials);
    assert Ahead(s) == 66;
    hide Inv, Ahead, Start;
    RunAhead(s, acts);
    RunKeeps(s, acts);
    AheadNotNegative(Run(s, acts).state);
  }

  // ---------- which dealers can start a hand ----------

  /** What `| 0` makes of a number: cut to a whole one towards zero, and wrapped round to 32 bits with a sign. */
  function Int32Of(v: real): (n: int)
    ensures -0x8000_0000 <= n < 0x8000_0000
  {
    var whole := if v >= 0.0 then v.Floor else -(-v).Floor;
    (whole + 0x8000_0000) % 0x1_0000_0000 - 0x8000_0000
  }

  /** JavaScript's remainder by four, towards zero. */
  function JsSeat(n: int): (r: int)
    ensures -4 < r < 4
  {
    if n >= 0 then n % 4 else -((-n) % 4)
  }

  /** The start for any number as dealer, as the source computes it. */
  function StartAt(dealer: real, dulle: bool, noSpecials: bool): State {
    var d := JsSeat(Int32Of(dealer));
    State(dulle, noSpecials, d, Reserving, JsSeat(d + 1), [Unsaid, Unsaid, Unsaid, Unsaid], [], -1,
          Normal, -1, -1, 0, JsSeat(d + 1), [], [], [0, 0, 0, 0], -1, -1, [None, None, None, None], [])
  }

  lemma {:induction false} NeverPlays(s: State, acts: seq<Action>)
    requires Sized(s) && s.phase == Reserving && s.dealer < 0 && Run(s, acts).Ok?
    ensures var r := Run(s, acts).state; Sized(r) && r.phase == Reserving && r.dealer < 0
  {
    if acts != [] {
      NeverPlays(s, acts[..|acts| - 1]);
      StaysReserving(Run(s, acts[..|acts| - 1]).state, acts[|acts| - 1]);
    }
  }

  lemma StaysReserving(s: State, a: Action)
    requires Sized(s) && s.phase == Reserving && s.dealer < 0 && Apply(s, a).Ok?
    ensures var r := Apply(s, a).state; Sized(r) && r.phase == Reserving && r.dealer < 0
  {
    hide Count, Plays, CloseTrick, QueueIndex;
  }

  /**
    A hand can be played exactly when the dealer's number, made a signed 32-bit one, leaves a remainder that is a seat;
    then it is the hand of that seat.
   */
  lemma DealerMustSit(dealer: real, dulle: bool, noSpecials: bool)
    ensures var seat := JsSeat(Int32Of(dealer));
      if seat >= 0 then StartAt(dealer, dulle, noSpecials) == Start(seat, dulle, noSpecials)
      else forall acts :: Run(StartAt(dealer, dulle, noSpecials), acts).Ok? ==>
        Run(StartAt(dealer, dulle, noSpecials), acts).state.phase == Reserving
  {
    if JsSeat(Int32Of(dealer)) < 0 {
      forall acts | Run(StartAt(dealer, dulle, noSpecials), acts).Ok?
        ensures Run(StartAt(dealer, dulle, noSpecials), acts).state.phase == Reserving
      {
        NeverPlays(StartAt(dealer, dulle, noSpecials), acts);
      }
    }
  }

  /** A large number can wrap round to a seat that is none, and a negative one to a seat. */
  lemma DealerWraps()
    ensures JsSeat(Int32Of(2147483649.0)) == -3 && JsSeat(Int32Of(-2147483649.0)) == 3
  {
  }
}
