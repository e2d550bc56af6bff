/** After the hand: parties, winner and points. */
module DokoScore {
  import opened Options
  import opened DokoCards
  import opened DokoRules
  import opened DokoGame
  import opened DokoRuns

  /** Four hands of twelve that make up the whole pack. */
  ghost predicate ValidDeal(hands: seq<seq<Card>>) {
    && |hands| == 4
    && (forall x :: 0 <= x < 4 ==> |hands[x]| == HAND)
    && forall c :: Count(hands[0], c) + Count(hands[1], c) + Count(hands[2], c) + Count(hands[3], c) == 2
  }

  datatype Why = Announced(kind: Kind) | Silent
  datatype Sided = Sided(re: seq<int>, solo: bool, why: Why)

  function QueensOf(hands: seq<seq<Card>>, x: int): nat
    requires 0 <= x < |hands|
  {
    Count(hands[x], CLUB_QUEEN)
  }

  /** The first seat with both Club Queens, or -1. */
  function SilentSeat(hands: seq<seq<Card>>): (r: int)
    requires |hands| == 4
    ensures -1 <= r < 4
    ensures r < 0 ==> forall x :: 0 <= x < 4 ==> QueensOf(hands, x) != 2
    ensures r >= 0 ==> QueensOf(hands, r) == 2
  {
    if QueensOf(hands, 0) == 2 then 0 else if QueensOf(hands, 1) == 2 then 1
    else if QueensOf(hands, 2) == 2 then 2 else if QueensOf(hands, 3) == 2 then 3 else -1
  }

  /** The seats, in order, that hold a Club Queen. */
  function QueenSeats(hands: seq<seq<Card>>, upTo: nat): (re: seq<int>)
    requires upTo <= |hands|
    ensures forall x :: x in re <==> 0 <= x < upTo && QueensOf(hands, x) > 0
  {
    if upTo == 0 then [] else QueenSeats(hands, upTo - 1) + if QueensOf(hands, upTo - 1) > 0 then [upTo - 1] else []
  }

  function Parties(s: State, hands: seq<seq<Card>>): Sided
    requires |hands| == 4
  {
    if s.kind == Normal then
      var silent := SilentSeat(hands);
      if silent >= 0 then Sided([silent], true, Silent) else Sided(QueenSeats(hands, 4), false, Announced(s.kind))
    else if s.kind == Wedding then Sided([s.soloist, s.partner], false, Announced(s.kind))
    else Sided([s.soloist], true, Announced(s.kind))
  }

  function Side(re: seq<int>, seat: int): Party { if seat in re then Re else Kontra }

  /** A solo has one Re player; any other finished game with a valid deal has two. */
  predicate TwoSides(P: Sided) {
    if P.solo then |P.re| == 1 && 0 <= P.re[0] < 4
    else |P.re| == 2 && 0 <= P.re[0] < 4 && 0 <= P.re[1] < 4 && P.re[0] != P.re[1]
  }

  lemma DealSides(s: State, hands: seq<seq<Card>>)
    requires ValidDeal(hands) && Inv(s) && (s.kind == Wedding ==> s.partner >= 0)
    ensures TwoSides(Parties(s, hands))
    ensures s.kind == Normal ==>
      forall x :: 0 <= x < 4 ==> (Side(Parties(s, hands).re, x) == Re <==> QueensOf(hands, x) > 0)
  {
    hide TalkOk, TableOk, AtMostTwice, Plays;
    assert QueensOf(hands, 0) + QueensOf(hands, 1) + QueensOf(hands, 2) + QueensOf(hands, 3) == 2;
    hide QueensOf, ValidDeal;
    if s.kind == Normal && SilentSeat(hands) < 0 { TwoQueens(hands); }
  }

  lemma TwoQueens(hands: seq<seq<Card>>)
    requires |hands| == 4 && SilentSeat(hands) < 0
    requires QueensOf(hands, 0) + QueensOf(hands, 1) + QueensOf(hands, 2) + QueensOf(hands, 3) == 2
    ensures |QueenSeats(hands, 4)| == 2
    ensures 0 <= QueenSeats(hands, 4)[0] < QueenSeats(hands, 4)[1] < 4
  {
    hide QueensOf;
    var a := QueenSeats(hands, 0);
    assert a == [];
    var b := QueenSeats(hands, 1);
    var c := QueenSeats(hands, 2);
    var d := QueenSeats(hands, 3);
    assert b == a + if QueensOf(hands, 0) > 0 then [0] else [];
    assert c == b + if QueensOf(hands, 1) > 0 then [1] else [];
    assert d == c + if QueensOf(hands, 2) > 0 then [2] else [];
    assert QueenSeats(hands, 4) == d + if QueensOf(hands, 3) > 0 then [3] else [];
  }

  // ---------- eyes and tricks of a party ----------

  function EyesWon(tricks: seq<Trick>, re: seq<int>, p: Party): nat {
    if tricks == [] then 0
    else EyesWon(tricks[..|tricks| - 1], re, p) + if Side(re, tricks[|tricks| - 1].winner) == p then
      tricks[|tricks| - 1].eyes else 0
  }

  function TricksWon(tricks: seq<Trick>, re: seq<int>, p: Party): nat {
    if tricks == [] then 0
    else TricksWon(tricks[..|tricks| - 1], re, p) + if Side(re, tricks[|tricks| - 1].winner) == p then 1 else 0
  }

  lemma {:induction false} AllWon(tricks: seq<Trick>, re: seq<int>)
    ensures EyesWon(tricks, re, Re) + EyesWon(tricks, re, Kontra) == TrickEyes(tricks)
    ensures TricksWon(tricks, re, Re) + TricksWon(tricks, re, Kontra) == |tricks|
    ensures forall p :: TricksWon(tricks, re, p) == 0 ==> EyesWon(tricks, re, p) == 0
  {
    if tricks != [] { AllWon(tricks[..|tricks| - 1], re); }
  }

  // ---------- who wins ----------

  datatype Target = NeedTricks(n: nat) | NeedEyes(n: nat)

  /** The counts a party is judged by. */
  datatype Tally = Tally(eyesRe: nat, eyesKontra: nat, tricksRe: nat, tricksKontra: nat)

  function EyesFor(t: Tally, p: Party): nat { if p == Re then t.eyesRe else t.eyesKontra }
  function TricksFor(t: Tally, p: Party): nat { if p == Re then t.tricksRe else t.tricksKontra }

  /**
    What a party with this level needs against the other's: its own call first, then the other side's, then plain Re
    or Kontra.
   */
  function TargetOf(own: int, other: int, p: Party): Target {
    if own >= 1 then
      if own == 4 then NeedTricks(HAND) else NeedEyes(if own == 1 then 151 else if own == 2 then 181 else 211)
    else if other >= 1 then
      if other == 4 then NeedTricks(1) else NeedEyes(if other == 1 then 90 else if other == 2 then 60 else 30)
    else if p == Re then NeedEyes(if other >= 0 && own < 0 then 120 else 121)
    else NeedEyes(if own >= 0 && other < 0 then 121 else 120)
  }

  predicate Met(s: State, t: Tally, p: Party) {
    Reaches(TargetOf(Level(s, p), Level(s, Opp(p)), p), EyesFor(t, p), TricksFor(t, p))
  }

  predicate Reaches(g: Target, eyes: nat, tricks: nat) { if g.NeedTricks? then tricks >= g.n else eyes >= g.n }

  /** All eyes and tricks of a finished hand are in the tally, and no trick means no eyes. */
  predicate FullTally(t: Tally) {
    && t.eyesRe + t.eyesKontra == 240 && t.tricksRe + t.tricksKontra == HAND
    && (t.tricksRe == 0 ==> t.eyesRe == 0) && (t.tricksKontra == 0 ==> t.eyesKontra == 0)
  }

  lemma OneReaches(re: int, kontra: int, e: nat, f: nat, n: nat, m: nat)
    requires -1 <= re <= 4 && -1 <= kontra <= 4
    requires e + f == 240 && n + m == HAND && (n == 0 ==> e == 0) && (m == 0 ==> f == 0)
    ensures !(Reaches(TargetOf(re, kontra, Re), e, n) && Reaches(TargetOf(kontra, re, Kontra), f, m))
    ensures !Reaches(TargetOf(re, kontra, Re), e, n) && !Reaches(TargetOf(kontra, re, Kontra), f, m) ==>
      re >= 1 && kontra >= 1
  {
  }

  /** At most one party reaches its target, and neither does only when both had called more than Re or Kontra. */
  lemma OneWinner(s: State, t: Tally)
    requires FullTally(t) && -1 <= s.re <= 4 && -1 <= s.kontra <= 4
    ensures !(Met(s, t, Re) && Met(s, t, Kontra))
    ensures !Met(s, t, Re) && !Met(s, t, Kontra) ==> s.re >= 1 && s.kontra >= 1
  {
    hide TargetOf, Reaches;
    OneReaches(s.re, s.kontra, t.eyesRe, t.eyesKontra, t.tricksRe, t.tricksKontra);
  }

  // ---------- points ----------

  datatype Key = Won | Under90 | Under60 | Under30 | NoTrick | CalledRe | CalledKontra | Announced90
      | Announced60 | Announced30 | AnnouncedBlack
    | Against90 | Against60 | Against30 | AgainstBlack | AgainstOld | Doppelkopf | Fox | Karlchen
  datatype Line = Line(key: Key, v: nat, party: Party)
  datatype Sheet = Sheet(lines: seq<Line>, re: nat, kontra: nat)

  function PointsIn(lines: seq<Line>, p: Party): nat {
    if lines == [] then 0 else PointsIn(lines[..|lines| - 1], p) + if lines[|lines| - 1].party == p then
      lines[|lines| - 1].v else 0
  }

  function PointsFor(h: Sheet, p: Party): nat { if p == Re then h.re else h.kontra }

  predicate Adds(h: Sheet) { h.re == PointsIn(h.lines, Re) && h.kontra == PointsIn(h.lines, Kontra) }

  function Blank(): (h: Sheet)
    ensures Adds(h) && h.re == 0 && h.kontra == 0
  {
    Sheet([], 0, 0)
  }

  lemma AddsUp(h: Sheet, p: Party)
    requires Adds(h)
    ensures PointsIn(h.lines, p) == PointsFor(h, p)
  {
  }

  function Add(h: Sheet, p: Party, k: Key, v: nat): (r: Sheet)
    requires Adds(h)
    ensures Adds(r) && r.re == h.re + (if p == Re then v else 0) && r.kontra == h.kontra + if p == Kontra then v else 0
  {
    if v == 0 then h
    else
      var lines := h.lines + [Line(k, v, p)];
      assert lines[..|h.lines|] == h.lines;
      Sheet(lines, h.re + if p == Re then v else 0, h.kontra + if p == Kontra then v else 0)
  }

  /** How many of the marks 90, 60 and 30 a count stays under, and one more for no trick at all. */
  function Missed(eyes: nat, tricks: nat): nat {
    (if eyes < 30 then 3 else if eyes < 60 then 2 else if eyes < 90 then 1 else 0) + if tricks == 0 then 1 else 0
  }

  /** How many of the other side's calls were answered by 120, 90, 60, 30 eyes. */
  function Defied(level: int, eyes: nat, l: nat): nat
    requires l <= 4
  {
    if l == 0 then 0 else Defied(level, eyes, l - 1) + if level >= l && eyes >= 150 - 30 * l then 1 else 0
  }

  function CallPoints(level: int): nat { if level < 0 then 0 else 2 + level }

  function BasePoints(s: State, t: Tally, winner: Option<Party>, p: Party): nat {
    var o := Opp(p);
    (if winner == Some(p) || winner == None then Missed(EyesFor(t, o), TricksFor(t, o)) else 0)
    + (if winner == Some(p) then 1 + CallPoints(s.re) + CallPoints(s.kontra) else 0)
    + Defied(Level(s, o), EyesFor(t, p), 4)
  }

  function AnnouncedKey(l: nat): Key {
    if l <= 1 then Announced90 else if l == 2 then Announced60 else if l == 3 then Announced30 else AnnouncedBlack
  }

  method CallLines(h: Sheet, p: Party, level: int) returns (r: Sheet)
    requires Adds(h) && -1 <= level <= 4
    ensures Adds(r) && PointsFor(r, p) == PointsFor(h, p) + (if level > 0 then level else 0)
    ensures PointsFor(r, Opp(p)) == PointsFor(h, Opp(p))
  {
    hide PointsIn, Adds;
    r := h;
    var l := 1;
    while l <= level
      invariant 1 <= l && (l <= level + 1 || level < 1) && (level < 1 ==> l == 1)
      invariant Adds(r) && PointsFor(r, p) == PointsFor(h, p) + l - 1 && PointsFor(r, Opp(p)) == PointsFor(h, Opp(p))
    {
      r := Add(r, p, AnnouncedKey(l), 1);
      l := l + 1;
    }
  }

  method MissedLines(h: Sheet, p: Party, eyes: nat, tricks: nat) returns (r: Sheet)
    requires Adds(h)
    ensures Adds(r) && PointsFor(r, p) == PointsFor(h, p) + Missed(eyes, tricks)
    ensures PointsFor(r, Opp(p)) == PointsFor(h, Opp(p))
  {
    hide PointsIn, Adds;
    r := Add(h, p, Under90, if eyes < 90 then 1 else 0);
    r := Add(r, p, Under60, if eyes < 60 then 1 else 0);
    r := Add(r, p, Under30, if eyes < 30 then 1 else 0);
    r := Add(r, p, NoTrick, if tricks == 0 then 1 else 0);
  }

  method WonLines(h: Sheet, p: Party, re: int, kontra: int) returns (r: Sheet)
    requires Adds(h) && -1 <= re <= 4 && -1 <= kontra <= 4
    ensures Adds(r) && PointsFor(r, p) == PointsFor(h, p) + CallPoints(re) + CallPoints(kontra)
    ensures PointsFor(r, Opp(p)) == PointsFor(h, Opp(p))
  {
    hide PointsIn, Adds;
    r := Add(h, p, CalledRe, if re >= 0 then 2 else 0);
    r := Add(r, p, CalledKontra, if kontra >= 0 then 2 else 0);
    r := CallLines(r, p, re);
    r := CallLines(r, p, kontra);
  }

  method PartyLines(s: State, t: Tally, winner: Option<Party>, h: Sheet, p: Party) returns (r: Sheet)
    requires Adds(h) && -1 <= s.re <= 4 && -1 <= s.kontra <= 4
    ensures Adds(r) && PointsFor(r, p) == PointsFor(h, p) + BasePoints(s, t, winner, p)
    ensures PointsFor(r, Opp(p)) == PointsFor(h, Opp(p))
  {
    hide PointsIn, Adds, Missed, CallPoints, Defied;
    var o := Opp(p);
    r := h;
    if winner == Some(p) { r := Add(r, p, Won, 1); }
    if winner == Some(p) || winner == None { r := MissedLines(r, p, EyesFor(t, o), TricksFor(t, o)); }
    if winner == Some(p) { r := WonLines(r, p, s.re, s.kontra); }
    r := AgainstLines(r, p, Level(s, o), EyesFor(t, p));
  }

  method AgainstLines(h: Sheet, p: Party, level: int, eyes: nat) returns (r: Sheet)
    requires Adds(h)
    ensures Adds(r) && PointsFor(r, p) == PointsFor(h, p) + Defied(level, eyes, 4)
    ensures PointsFor(r, Opp(p)) == PointsFor(h, Opp(p))
  {
    hide PointsIn, Adds;
    r := Add(h, p, Against90, if level >= 1 && eyes >= 120 then 1 else 0);
    r := Add(r, p, Against60, if level >= 2 && eyes >= 90 then 1 else 0);
    r := Add(r, p, Against30, if level >= 3 && eyes >= 60 then 1 else 0);
    r := Add(r, p, AgainstBlack, if level >= 4 && eyes >= 30 then 1 else 0);
    assert Defied(level, eyes, 1) == if level >= 1 && eyes >= 120 then 1 else 0;
    assert Defied(level, eyes, 2) == Defied(level, eyes, 1) + if level >= 2 && eyes >= 90 then 1 else 0;
    assert Defied(level, eyes, 3) == Defied(level, eyes, 2) + if level >= 3 && eyes >= 60 then 1 else 0;
  }

  // ---------- special points ----------

  /** Foxes: Diamond Aces the winner's side took from the other. */
  function Foxes(cards: seq<Played>, re: seq<int>, w: Party): nat {
    if cards == [] then 0
    else
      var x := cards[|cards| - 1];
      Foxes(cards[..|cards| - 1], re, w) + if x.card == Card(Diamonds, Ace) && Side(re, x.seat) != w then 1 else 0
  }

  function WinnersCard(t: Trick): Card
    requires TrickOk(t)
  {
    t.cards[Behind(t.lead, t.winner)].card
  }

  function Special(t: Trick, re: seq<int>, last: bool): nat
    requires TrickOk(t)
  {
    (if t.eyes >= 40 then 1 else 0) + Foxes(t.cards, re, Side(re, t.winner)) + if last
      && WinnersCard(t) == Card(Clubs, Jack) then 1 else 0
  }

  function Specials(tricks: seq<Trick>, re: seq<int>, p: Party): nat
    requires forall k :: 0 <= k < |tricks| ==> TrickOk(tricks[k])
  {
    if tricks == [] then 0
    else
      var t := tricks[|tricks| - 1];
      Specials(tricks[..|tricks| - 1], re, p) + if Side(re, t.winner) == p then Special(t, re, |tricks| == HAND) else 0
  }

  method TrickLines(h: Sheet, t: Trick, re: seq<int>, last: bool) returns (r: Sheet)
    requires Adds(h) && TrickOk(t)
    ensures var w := Side(re, t.winner);
      Adds(r) && PointsFor(r, w) == PointsFor(h, w) + Special(t, re, last)
        && PointsFor(r, Opp(w)) == PointsFor(h, Opp(w))
  {
    hide PointsIn, Adds;
    var w := Side(re, t.winner);
    r := h;
    if t.eyes >= 40 { r := Add(r, w, Doppelkopf, 1); }
    ghost var h1 := r;
    for i := 0 to |t.cards|
      invariant Adds(r) && PointsFor(r, w) == PointsFor(h1, w) + Foxes(t.cards[..i], re, w)
      invariant PointsFor(r, Opp(w)) == PointsFor(h1, Opp(w))
    {
      assert t.cards[..i + 1][..i] == t.cards[..i];
      if t.cards[i].card == Card(Diamonds, Ace) && Side(re, t.cards[i].seat) != w { r := Add(r, w, Fox, 1); }
    }
    assert t.cards[..|t.cards|] == t.cards;
    if last {
      var mine := FirstBy(t);
      if mine == Card(Clubs, Jack) { r := Add(r, w, Karlchen, 1); }
    }
  }

  /** The first card the winner put into the trick. */
  method FirstBy(t: Trick) returns (c: Card)
    requires TrickOk(t)
    ensures c == WinnersCard(t)
  {
    hide EyeSum;
    var i := 0;
    while t.cards[i].seat != t.winner
      invariant 0 <= i <= Behind(t.lead, t.winner)
      decreases 4 - i
    {
      i := i + 1;
    }
    c := t.cards[i].card;
  }

  // ---------- the whole result ----------

  datatype Result = Result(winner: Option<Party>, why: Why, solo: bool, re: seq<int>, value: nat,
      points: seq<int>, tally: Tally, lines: seq<Line>)

  method TallyOf(s: State, re: seq<int>) returns (t: Tally)
    ensures t == Tally(EyesWon(s.tricks, re, Re), EyesWon(s.tricks, re, Kontra), TricksWon(s.tricks, re, Re),
      TricksWon(s.tricks, re, Kontra))
  {
    t := Tally(0, 0, 0, 0);
    for i := 0 to |s.tricks|
      invariant t == Tally(EyesWon(s.tricks[..i], re, Re), EyesWon(s.tricks[..i], re, Kontra),
                           TricksWon(s.tricks[..i], re, Re), TricksWon(s.tricks[..i], re, Kontra))
    {
      assert s.tricks[..i + 1][..i] == s.tricks[..i];
      var x := s.tricks[i];
      if Side(re, x.winner) == Re {
        t := t.(eyesRe := t.eyesRe + x.eyes, tricksRe := t.tricksRe + 1);
      } else {
        t := t.(eyesKontra := t.eyesKontra + x.eyes, tricksKontra := t.tricksKontra + 1);
      }
    }
    assert s.tricks[..|s.tricks|] == s.tricks;
  }

  function SpecialsFor(s: State, P: Sided, winner: Option<Party>, p: Party): nat
    requires forall k :: 0 <= k < |s.tricks| ==> TrickOk(s.tricks[k])
  {
    if P.solo || s.kind == Karo then 0
    else (if p == Kontra && winner == Some(Kontra) then 1 else 0) + if s.noSpecials then 0
      else Specials(s.tricks, P.re, p)
  }

  method SpecialLines(s: State, P: Sided, winner: Option<Party>, h: Sheet) returns (r: Sheet)
    requires Adds(h) && forall k :: 0 <= k < |s.tricks| ==> TrickOk(s.tricks[k])
    ensures Adds(r)
    ensures r.re == h.re + SpecialsFor(s, P, winner, Re) && r.kontra == h.kontra + SpecialsFor(s, P, winner, Kontra)
  {
    hide PointsIn, Adds, TrickOk, Special;
    r := h;
    if P.solo || s.kind == Karo { return; }
    if winner == Some(Kontra) { r := Add(r, Kontra, AgainstOld, 1); }
    if s.noSpecials { return; }
    ghost var h1 := r;
    for i := 0 to |s.tricks|
      invariant Adds(r) && r.re == h1.re + Specials(s.tricks[..i], P.re, Re)
      invariant r.kontra == h1.kontra + Specials(s.tricks[..i], P.re, Kontra)
    {
      assert s.tricks[..i + 1][..i] == s.tricks[..i];
      r := TrickLines(r, s.tricks[i], P.re, i == HAND - 1);
    }
    assert s.tricks[..|s.tricks|] == s.tricks;
  }

  function Abs(v: int): nat { if v < 0 then -v else v }

  /** What each seat gets for the Re side's balance v. */
  function Shares(P: Sided, v: int): seq<int>
    requires P.solo ==> P.re != []
  {
    seq(4, x => if P.solo then (if x == P.re[0] then 3 * v else -v) else if Side(P.re, x) == Re then v else -v)
  }

  function Sum4(p: seq<int>): int
    requires |p| == 4
  {
    p[0] + p[1] + p[2] + p[3]
  }

  lemma SharesCancel(P: Sided, v: int)
    requires TwoSides(P)
    ensures Sum4(Shares(P, v)) == 0
  {
    var p := Shares(P, v);
    if P.solo {
      var a := P.re[0];
      assert forall x :: 0 <= x < 4 ==> p[x] == if x == a then 3 * v else -v;
    } else {
      var a, b := P.re[0], P.re[1];
      assert forall x :: 0 <= x < 4 ==> (x in P.re <==> x == a || x == b);
      assert forall x :: 0 <= x < 4 ==> p[x] == if x == a || x == b then v else -v;
    }
  }

  method ResultOf(s: State, hands: seq<seq<Card>>) returns (r: Result)
    requires Inv(s) && |hands| == 4
    ensures var P, t := Parties(s, hands), r.tally;
      && r.re == P.re && r.solo == P.solo && r.why == P.why
      && t.eyesRe == EyesWon(s.tricks, P.re, Re) && t.eyesKontra == EyesWon(s.tricks, P.re, Kontra)
      && t.tricksRe == TricksWon(s.tricks, P.re, Re) && t.tricksKontra == TricksWon(s.tricks, P.re, Kontra)
      && (r.winner == Some(Re) <==> Met(s, t, Re)) && (r.winner == None <==> !Met(s, t, Re) && !Met(s, t, Kontra))
      && forall p :: PointsIn(r.lines, p) == BasePoints(s, t, r.winner, p) + SpecialsFor(s, P, r.winner, p)
    ensures var v := PointsIn(r.lines, Re) - PointsIn(r.lines, Kontra);
      r.points == Shares(Parties(s, hands), v) && r.value == Abs(v)
    ensures s.phase == Finished ==>
      FullTally(r.tally) && (Met(s, r.tally, Kontra) <==> r.winner == Some(Kontra))
        && (r.winner == None ==> s.re >= 1 && s.kontra >= 1)
    ensures s.phase == Finished && ValidDeal(hands) ==> Sum4(r.points) == 0
  {
    hide Inv, BasePoints, SpecialsFor, EyesWon, TricksWon, PointsIn, ValidDeal, QueensOf, Met, FullTally, Adds, Sum4;
    var P := Parties(s, hands);
    var t := TallyOf(s, P.re);
    TableHolds(s);
    var winner := if Met(s, t, Re) then Some(Re) else if Met(s, t, Kontra) then Some(Kontra) else None;
    var h := PartyLines(s, t, winner, Blank(), Re);
    h := PartyLines(s, t, winner, h, Kontra);
    h := SpecialLines(s, P, winner, h);
    var v := h.re - h.kontra;
    forall p
      ensures PointsIn(h.lines, p) == BasePoints(s, t, winner, p) + SpecialsFor(s, P, winner, p)
    {
      AddsUp(h, p);
    }
    AddsUp(h, Re);
    AddsUp(h, Kontra);
    r := Result(winner, P.why, P.solo, P.re, Abs(v), Shares(P, v), t, h.lines);
    FinishedTally(s, P.re, t);
    if s.phase == Finished {
      OneWinner(s, t);
    }
    if s.phase == Finished && ValidDeal(hands) {
      DealSides(s, hands);
      SharesCancel(P, v);
    }
  }

  lemma TableHolds(s: State)
    requires Inv(s)
    ensures -1 <= s.re <= 4 && -1 <= s.kontra <= 4
    ensures forall k :: 0 <= k < |s.tricks| ==> TrickOk(s.tricks[k])
    ensures s.phase == Finished && s.kind == Wedding ==> s.partner >= 0
  {
    hide AtMostTwice, TalkOk, TrickOk;
  }

  lemma FinishedTally(s: State, re: seq<int>, t: Tally)
    requires Inv(s)
    requires t == Tally(EyesWon(s.tricks, re, Re), EyesWon(s.tricks, re, Kontra), TricksWon(s.tricks, re, Re),
      TricksWon(s.tricks, re, Kontra))
    ensures s.phase == Finished ==> FullTally(t)
  {
    hide Inv, EyesWon, TricksWon;
    if s.phase == Finished {
      FinishedHand(s);
      AllWon(s.tricks, re);
    }
  }
}
