/**
  How a match of Schnee-Schlacht (5 hits) or Insel-Panzer (3 hits) ends on both phones, although both may take the last
  hit at once. The number of hits that win is a parameter.
 */
module MatchEnd {
  import opened Options

  /** A hit as the one who took it reports it, the point message that goes with it, other reports, and the last word. */
  datatype Msg = Hit | Pt | Report | Fin(c: nat)

  /** One phone: hits given, hits taken, and how far the end has come. */
  datatype Side = Side(given: nat, taken: nat, ending: bool, over: bool, oppFin: Option<nat>, draw: bool)

  datatype Res = Res(s: Side, out: seq<Msg>)

  function Min(a: nat, b: nat): nat { if a < b then a else b }
  function Max(a: nat, b: nat): nat { if a < b then b else a }

  function Finish(s: Side): Side { s.(over := true, ending := false, draw := s.given == s.taken) }

  function Check(s: Side, win: nat): Res {
    if s.over || !(s.given >= win || s.taken >= win || s.oppFin.Some?) then Res(s, [])
    else
      var s1 := s.(ending := true);
      Res(if s1.oppFin.Some? then Finish(s1.(given := Max(s1.given, s1.oppFin.value))) else s1, if s.ending then []
        else [Fin(s.taken)])
  }

  /** This phone was hit: it says so, counts it and looks whether that was the end. */
  function Concede(s: Side, win: nat): Res {
    if s.over || s.ending then Res(s, [])
    else var r := Check(s.(taken := s.taken + 1), win); Res(r.s, [Hit, Pt] + r.out)
  }

  predicate FinCounts(s: Side, c: nat, win: nat) { s.oppFin.None? && (c >= win || s.taken >= win) }

  function Receive(s: Side, m: Msg, win: nat): Res {
    if s.over then Res(s, [])
    else match m
      case Hit => Check(s.(given := s.given + 1), win)
      case Fin(c) => if FinCounts(s, c, win) then Check(s.(oppFin := Some(Min(win, c))), win) else Res(s, [])
      case _ => Res(s, [])
  }

  /** The side as an object, changed in place. */
  class Base {
    const win: nat
    var given: nat
    var taken: nat
    var ending: bool
    var over: bool
    var oppFin: Option<nat>
    var draw: bool

    ghost function Now(): Side
      reads this
    {
      Side(given, taken, ending, over, oppFin, draw)
    }

    constructor (win: nat)
      ensures Now() == Side(0, 0, false, false, None, false) && this.win == win
    {
      this.win := win;
      given, taken, ending, over, oppFin, draw := 0, 0, false, false, None, false;
    }

    method LookForEnd() returns (out: seq<Msg>)
      modifies this
      ensures Res(Now(), out) == Check(old(Now()), win)
    {
      out := [];
      if over || !(given >= win || taken >= win || oppFin.Some?) { return; }
      if !ending {
        ending := true;
        out := [Fin(taken)];
      }
      if oppFin.Some? {
        given := Max(given, oppFin.value);
        over, ending, draw := true, false, given == taken;
      }
    }

    method TakeHit() returns (out: seq<Msg>)
      modifies this
      ensures Res(Now(), out) == Concede(old(Now()), win)
    {
      out := [];
      if over || ending { return; }
      taken := taken + 1;
      var more := LookForEnd();
      out := [Hit, Pt] + more;
    }

    method Hear(m: Msg) returns (out: seq<Msg>)
      modifies this
      ensures Res(Now(), out) == Receive(old(Now()), m, win)
    {
      out := [];
      if over { return; }
      match m {
        case Hit =>
          given := given + 1;
          out := LookForEnd();
        case Fin(c) =>
          if oppFin.None? && (c >= win || taken >= win) {
            oppFin := Some(Min(win, c));
            out := LookForEnd();
          }
        case _ =>
      }
    }
  }

  // ---------- both phones ----------

  datatype World = World(a: Side, b: Side, toA: seq<Msg>, toB: seq<Msg>)

  datatype Move = IsHit(first: bool) | Arrives(first: bool) | Reports(first: bool)

  predicate Possible(w: World, m: Move) { m.Arrives? ==> if m.first then w.toA != [] else w.toB != [] }

  function Swapped(w: World): World { World(w.b, w.a, w.toB, w.toA) }

  function FirstMoves(w: World, m: Move, win: nat): World
    requires m.Arrives? ==> w.toA != []
  {
    match m
    case IsHit(_) => var r := Concede(w.a, win); w.(a := r.s, toB := w.toB + r.out)
    case Arrives(_) => var r := Receive(w.a, w.toA[0], win); w.(a := r.s, toA := w.toA[1..], toB := w.toB + r.out)
    case Reports(_) => w.(toB := w.toB + [Report])
  }

  function Moved(w: World, m: Move, win: nat): World
    requires Possible(w, m)
  {
    if m.first then FirstMoves(w, m, win) else Swapped(FirstMoves(Swapped(w), m, win))
  }

  function Hits(ms: seq<Msg>): nat {
    if ms == [] then 0 else Hits(ms[..|ms| - 1]) + if ms[|ms| - 1] == Hit then 1 else 0
  }
  function Fins(ms: seq<Msg>): nat { if ms == [] then 0 else Fins(ms[..|ms| - 1]) + if ms[|ms| - 1].Fin? then 1 else 0 }

  lemma {:induction false} Counts(a: seq<Msg>, b: seq<Msg>)
    ensures Hits(a + b) == Hits(a) + Hits(b) && Fins(a + b) == Fins(a) + Fins(b)
    decreases |b|
  {
    if b == [] {
      assert a + b == a;
    } else {
      Counts(a, b[..|b| - 1]);
      assert (a + b)[..|a + b| - 1] == a + b[..|b| - 1];
    }
  }

  predicate Spoken(s: Side) { s.ending || s.over }

  /** After a last word nothing but reports: the ordered channel brings every hit before it. */
  predicate FinLast(ms: seq<Msg>) { forall i, j :: 0 <= i < j < |ms| && ms[i].Fin? ==> ms[j] != Hit && !ms[j].Fin? }

  predicate SideOk(s: Side, win: nat) {
    && s.taken <= win && s.given <= win
    && (s.over <==> s.oppFin.Some?)
    && (!Spoken(s) ==> s.given < win && s.taken < win)
    && (s.over ==> s.draw == (s.given == s.taken) && !s.ending)
  }

  /** What is on its way from s to t. */
  predicate Towards(s: Side, t: Side, ms: seq<Msg>, win: nat) {
    && t.given + Hits(ms) == s.taken
    && FinLast(ms)
    && (forall i :: 0 <= i < |ms| && ms[i].Fin? ==> ms[i].c == s.taken)
    && (if Spoken(s) then (if t.oppFin.Some? then Fins(ms) == 0 && t.oppFin.value == s.taken && t.given == s.taken
       else Fins(ms) == 1)
        else Fins(ms) == 0 && t.oppFin.None?)
    && (s.ending ==> s.taken >= win || t.taken >= win)
    && (s.over ==> s.taken >= win || t.taken >= win)
  }

  predicate WorldOk(w: World, win: nat) {
    SideOk(w.a, win) && SideOk(w.b, win) && Towards(w.a, w.b, w.toB, win) && Towards(w.b, w.a, w.toA, win)
  }

  lemma HeadCounts(ms: seq<Msg>)
    requires ms != []
    ensures Hits(ms) == Hits(ms[1..]) + (if ms[0] == Hit then 1 else 0)
      && Fins(ms) == Fins(ms[1..]) + if ms[0].Fin? then 1 else 0
  {
    Counts([ms[0]], ms[1..]);
    assert [ms[0]] + ms[1..] == ms;
    OneCount(ms[0]);
  }

  lemma OneCount(m: Msg)
    ensures Hits([m]) == (if m == Hit then 1 else 0) && Fins([m]) == if m.Fin? then 1 else 0
  {
    assert [m][..0] == [];
  }

  lemma {:induction false} NoFins(ms: seq<Msg>)
    ensures Fins(ms) == 0 <==> forall i :: 0 <= i < |ms| ==> !ms[i].Fin?
  {
    if ms != [] { NoFins(ms[..|ms| - 1]); }
  }

  lemma {:induction false} NoHits(ms: seq<Msg>)
    requires forall i :: 0 <= i < |ms| ==> ms[i] != Hit
    ensures Hits(ms) == 0
  {
    if ms != [] { NoHits(ms[..|ms| - 1]); }
  }

  /** More on the way: hits, then perhaps the last word. */
  lemma Sends(s: Side, s': Side, t: Side, ms: seq<Msg>, hit: bool, fin: bool, win: nat)
    requires Towards(s, t, ms, win) && s'.taken == s.taken + (if hit then 1 else 0) && (hit ==> !Spoken(s))
    requires fin == (Spoken(s') && !Spoken(s)) && (Spoken(s) ==> Spoken(s'))
    requires Spoken(s') && !Spoken(s) ==> s'.taken >= win || t.taken >= win
    ensures Towards(s', t, ms + (if hit then [Hit, Pt] else []) + (if fin then [Fin(s'.taken)] else []), win)
  {
    var a := if hit then [Hit, Pt] else [];
    var b := if fin then [Fin(s'.taken)] else [];
    Counts(ms, a);
    Counts(ms + a, b);
    OneCount(Fin(s'.taken));
    Counts([Hit], [Pt]);
    assert [Hit] + [Pt] == [Hit, Pt];
    OneCount(Hit);
    OneCount(Pt);
    NoFins(ms);
    hide Hits, Fins;
  }

  lemma HitKeeps(w: World, win: nat)
    requires WorldOk(w, win) && win > 0
    ensures WorldOk(FirstMoves(w, IsHit(true), win), win)
  {
    if !Spoken(w.a) {
      var r := Concede(w.a, win);
      Sends(w.a, r.s, w.b, w.toB, true, Spoken(r.s), win);
      hide Hits, Fins, FinLast;
      assert w.toB + r.out == w.toB + [Hit, Pt] + (if Spoken(r.s) then [Fin(r.s.taken)] else []);
    } else {
      assert w.toB + [] == w.toB;
    }
  }

  lemma HitArrives(w: World, win: nat)
    requires WorldOk(w, win) && w.toA != [] && w.toA[0] == Hit
    ensures WorldOk(FirstMoves(w, Arrives(true), win), win)
  {
    hide Hits, Fins, FinLast, SideOk, Towards;
    HitHeard(w, win);
    var r := Receive(w.a, Hit, win);
    HitCounted(w.a, win);
    Sends(w.a, r.s, w.b, w.toB, false, Spoken(r.s) && !Spoken(w.a), win);
    assert w.toB + r.out == w.toB + [] + (if Spoken(r.s) && !Spoken(w.a) then [Fin(r.s.taken)] else []);
  }

  /** What a hit given does to the one who hears of it. */
  lemma HitCounted(s: Side, win: nat)
    requires !s.over && s.oppFin.None?
    ensures var r := Receive(s, Hit, win);
      && r.s.taken == s.taken && r.s.given == s.given + 1 && !r.s.over && r.s.oppFin.None?
         && (Spoken(s) ==> Spoken(r.s))
      && r.out == (if Spoken(r.s) && !Spoken(s) then [Fin(r.s.taken)] else [])
      && (Spoken(r.s) && !Spoken(s) ==> r.s.taken >= win || r.s.given >= win)
  {
  }

  /** The one who gave it has it counted; on the way to it there is one hit less. */
  lemma HitHeard(w: World, win: nat)
    requires WorldOk(w, win) && w.toA != [] && w.toA[0] == Hit
    ensures var r := Receive(w.a, Hit, win);
      SideOk(r.s, win) && Towards(w.b, r.s, w.toA[1..], win) && !w.a.over && w.a.oppFin.None?
        && w.a.given + 1 <= w.b.taken
  {
    hide Hits, Fins;
    HeadCounts(w.toA);
    TailLast(w.toA);
  }

  lemma TailLast(ms: seq<Msg>)
    requires ms != [] && FinLast(ms)
    ensures FinLast(ms[1..])
    ensures ms[0].Fin? ==> forall j :: 0 <= j < |ms[1..]| ==> ms[1..][j] != Hit
  {
  }

  /** Every honest last word counts, and brings the whole number of hits. */
  lemma FinIsAccepted(w: World, win: nat)
    requires WorldOk(w, win) && w.toA != [] && w.toA[0].Fin?
    ensures !w.a.over && FinCounts(w.a, w.toA[0].c, win) && w.toA[0].c == w.b.taken == w.a.given
  {
    HeadCounts(w.toA);
    TailLast(w.toA);
    NoHits(w.toA[1..]);
    hide Hits, Fins;
  }

  lemma FinArrives(w: World, win: nat)
    requires WorldOk(w, win) && w.toA != [] && w.toA[0].Fin?
    ensures WorldOk(FirstMoves(w, Arrives(true), win), win)
  {
    FinIsAccepted(w, win);
    HeadCounts(w.toA);
    TailLast(w.toA);
    hide Hits, Fins, FinLast;
    var r := Receive(w.a, w.toA[0], win);
    assert r.s.given == w.a.given && r.s.over;
    Sends(w.a, r.s, w.b, w.toB, false, Spoken(r.s) && !Spoken(w.a), win);
    assert w.toB + r.out == w.toB + [] + (if Spoken(r.s) && !Spoken(w.a) then [Fin(r.s.taken)] else []);
  }

  lemma OtherArrives(w: World, win: nat)
    requires WorldOk(w, win) && w.toA != [] && w.toA[0] != Hit && !w.toA[0].Fin?
    ensures WorldOk(FirstMoves(w, Arrives(true), win), win)
  {
    HeadCounts(w.toA);
    TailLast(w.toA);
    assert w.toB + [] == w.toB;
    hide Hits, Fins;
  }

  lemma ReportKeeps(w: World, win: nat)
    requires WorldOk(w, win)
    ensures WorldOk(FirstMoves(w, Reports(true), win), win)
  {
    Counts(w.toB, [Report]);
    OneCount(Report);
    hide Hits, Fins;
  }

  lemma StepKeeps(w: World, m: Move, win: nat)
    requires WorldOk(w, win) && Possible(w, m) && win > 0
    ensures WorldOk(Moved(w, m, win), win)
  {
    hide SideOk, Towards;
    var v := if m.first then w else Swapped(w);
    match m {
      case IsHit(_) => HitKeeps(v, win);
      case Reports(_) => ReportKeeps(v, win);
      case Arrives(_) =>
        if v.toA[0] == Hit {
          HitArrives(v, win);
        } else if v.toA[0].Fin? {
          FinArrives(v, win);
        } else {
          OtherArrives(v, win);
        }
    }
  }

  // ---------- every match ----------

  ghost predicate Runs(ws: seq<World>, ms: seq<Move>, win: nat) {
    var s := Side(0, 0, false, false, None, false);
    && |ws| == |ms| + 1 && ws[0] == World(s, s, [], [])
    && forall i :: 0 <= i < |ms| ==> Possible(ws[i], ms[i]) && ws[i + 1] == Moved(ws[i], ms[i], win)
  }

  lemma {:induction false} RunKeeps(ws: seq<World>, ms: seq<Move>, win: nat, i: nat)
    requires Runs(ws, ms, win) && win > 0 && i < |ws|
    ensures WorldOk(ws[i], win)
  {
    if i > 0 {
      hide WorldOk, Moved;
      RunKeeps(ws, ms, win, i - 1);
      StepKeeps(ws[i - 1], ms[i - 1], win);
    }
  }

  /** Two phones that are over agree, mirrored; last words count; nothing under way means over on both or on neither. */
  predicate EndsAlike(w: World, win: nat) {
    && (w.a.over && w.b.over ==> MirroredEnd(w.a, w.b, win))
    && (w.toA != [] && w.toA[0].Fin? ==> FinCounts(w.a, w.toA[0].c, win))
    && (w.toB != [] && w.toB[0].Fin? ==> FinCounts(w.b, w.toB[0].c, win))
    && (w.toA == [] && w.toB == [] ==>
          if w.a.over || w.b.over || w.a.given >= win || w.a.taken >= win then w.a.over && w.b.over
          else !Spoken(w.a) && !Spoken(w.b))
  }

  predicate MirroredEnd(a: Side, b: Side, win: nat) {
    && a.given == b.taken && a.taken == b.given && (a.given == win || a.taken == win)
    && a.draw == b.draw == (a.given == a.taken)
  }

  /**
    Whatever hits are taken when, and however messages and ticks interleave: two phones that are over agree, mirrored;
    no last word is ever turned down; and once nothing is on its way, the match is over on both or on neither.
   */
  lemma MatchesEndAlike(ws: seq<World>, ms: seq<Move>, win: nat, i: nat)
    requires Runs(ws, ms, win) && win > 0 && i < |ws|
    ensures EndsAlike(ws[i], win)
  {
    hide Runs;
    RunKeeps(ws, ms, win, i);
    var w := ws[i];
    if w.toA != [] && w.toA[0].Fin? { FinIsAccepted(w, win); }
    if w.toB != [] && w.toB[0].Fin? { FinIsAccepted(Swapped(w), win); }
  }
}
