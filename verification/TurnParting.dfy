/**
  When the two phones stay together: exactly as long as no throw is too fast for the receiver, and never again after
  one.
 */
module TurnParting {
  import opened Options
  import opened Discs
  import opened Reals
  import opened TurnGames
  import opened TurnLockstep

  // ---------- what every run can still come to ----------

  /** Some n moves lead from one world to the other. */
  ghost predicate Reaches(g: Game, w: World, v: World, n: nat, root: real -> real)
    requires IsRoot(root)
    decreases n
  {
    if n == 0 then v == w else exists m :: Possible(w, m) && Reaches(g, Moved(g, w, m, root), v, n - 1, root)
  }

  /** The boards of the two phones, now or later, are the same with mirrored scores. */
  ghost predicate CanAgree(g: Game, w: World, root: real -> real)
    requires IsRoot(root)
  {
    exists v, n :: Reaches(g, w, v, n, root) && SameGame(v.a, v.b)
  }

  lemma {:induction false} ReachesOn(g: Game, w: World, v: World, u: World, m: nat, n: nat, root: real -> real)
    requires IsRoot(root) && Reaches(g, w, v, m, root) && Reaches(g, v, u, n, root)
    ensures Reaches(g, w, u, m + n, root)
    decreases m
  {
    hide IsRoot, Moved, Possible;
    if m > 0 {
      var x :| Possible(w, x) && Reaches(g, Moved(g, w, x, root), v, m - 1, root);
      ReachesOn(g, Moved(g, w, x, root), v, u, m - 1, n, root);
      assert Possible(w, x) && Reaches(g, Moved(g, w, x, root), u, m + n - 1, root);
    }
  }

  lemma OneMove(g: Game, w: World, m: Move, root: real -> real)
    requires IsRoot(root) && Possible(w, m)
    ensures Reaches(g, w, Moved(g, w, m, root), 1, root)
  {
    hide IsRoot, Moved, Possible;
    assert Reaches(g, Moved(g, w, m, root), Moved(g, w, m, root), 0, root);
  }

  function Flipped(m: Move): Move { m.(first := !m.first) }

  lemma FlippedMove(g: Game, w: World, m: Move, root: real -> real)
    requires IsRoot(root) && Possible(Swapped(w), m)
    ensures Possible(w, Flipped(m)) && Moved(g, w, Flipped(m), root) == Swapped(Moved(g, Swapped(w), m, root))
  {
    hide IsRoot, Tick, Receive;
    assert Swapped(Swapped(w)) == w;
  }

  lemma {:induction false} ReachesSwapped(g: Game, w: World, v: World, n: nat, root: real -> real)
    requires IsRoot(root) && Reaches(g, Swapped(w), v, n, root)
    ensures Reaches(g, w, Swapped(v), n, root)
    decreases n
  {
    hide IsRoot, Moved, Possible;
    if n > 0 {
      var x :| Possible(Swapped(w), x) && Reaches(g, Moved(g, Swapped(w), x, root), v, n - 1, root);
      FlippedMove(g, w, x, root);
      var next := Moved(g, w, Flipped(x), root);
      assert Swapped(next) == Moved(g, Swapped(w), x, root);
      ReachesSwapped(g, next, v, n - 1, root);
      assert Possible(w, Flipped(x)) && Reaches(g, next, Swapped(v), n - 1, root);
    }
  }

  // ---------- without a fast throw the phones can always catch up ----------

  /** Enough steps bring every throw to its end. */
  lemma {:induction false} RolledOut(g: Game, ph: Phone, root: real -> real) returns (k: nat)
    requires IsRoot(root)
    ensures !Rolled(g, ph, k, root).st.rolling
    decreases (RulesHold(g); Steps(RulesOf(g), ph.st.list, root))
  {
    RulesHold(g);
    hide IsRoot, Step, Steps, Physical, Settle;
    k := 0;
    if ph.st.rolling {
      var r := Step(RulesOf(g), ph.st.list, root);
      var q := ph.(st := ph.st.(list := r.list));
      StepsDrop(RulesOf(g), ph.st.list, root);
      StillAfter(g, q, root);
      if r.moving { k := RolledOut(g, q, root); }
      k := k + 1;
    }
  }

  /** Nothing travels to the first phone, nothing waits there and nothing rolls. */
  predicate Idle(w: World) { w.toA == [] && w.a.queue == [] && !w.a.st.rolling && w.a.started }

  /** What is left to do on the first phone. */
  function Todo(w: World): nat {
    4 * |w.toA| + 2 * |w.a.queue| + (if w.a.st.rolling then 1 else 0) + (if w.a.started then 0 else 1)
  }

  lemma {:induction false} WorkOffShrinks(g: Game, ph: Phone, root: real -> real)
    requires ph.started && !ph.st.rolling && ph.queue != []
    ensures var q := WorkOff(g, ph, root); |q.queue| < |ph.queue| && q.started
    decreases |ph.queue|
  {
    hide Launched, TurnOf, Towards;
    var rest := Rejected(ph.(queue := ph.queue[1..]));
    if rest.queue != [] { WorkOffShrinks(g, rest, root); }
  }

  lemma NothingStarts(g: Game, ph: Phone, root: real -> real)
    requires ph.st.rolling
    ensures WorkOff(g, ph, root) == ph
  {
    hide Launched, TurnOf, Towards;
  }

  /** A match that is over has nothing left to do. */
  lemma NotOverYet(g: Game, w: World, root: real -> real)
    requires IsRoot(root) && WorldOk(g, w, root) && (w.a.st.rolling || w.a.queue != [])
    ensures !w.a.over
  {
    hide IsRoot, History, Settle, Board;
    if !w.a.st.rolling { NotOver(g, w.throws, w.a, root); }
  }

  /** A tick without a throw that lasts until nothing rolls. */
  lemma LongTick(g: Game, w: World, root: real -> real) returns (k: nat)
    requires IsRoot(root) && WorldOk(g, w, root) && w.a.started && (w.a.st.rolling || w.a.queue != [])
    ensures var v := FirstMoves(g, w, Ticks(true, None, k), root);
      v == w.(a := v.a) && Todo(v) < Todo(w) && Gentle(g, w, Ticks(true, None, k), root)
  {
    hide IsRoot, WorldOk, Rolled, TooFast, Launched, WorkOff;
    NotOverYet(g, w, root);
    var p := WorkOff(g, w.a, root);
    if w.a.st.rolling { NothingStarts(g, w.a, root); } else { WorkOffShrinks(g, w.a, root); }
    k := RolledOut(g, p, root);
    RolledPost(g, p, k, root);
  }

  /** The first phone's move that brings it nearer to having played everything. */
  lemma NextMove(g: Game, w: World, root: real -> real) returns (m: Move)
    requires IsRoot(root) && WorldOk(g, w, root) && !Idle(w)
    ensures m.first && Possible(w, m) && Gentle(g, w, m, root)
    ensures var v := FirstMoves(g, w, m, root);
      Todo(v) < Todo(w) && v == w.(a := v.a, toA := v.toA)
  {
    if w.toA != [] {
      m := Arrives(true);
      hide IsRoot, History, InStep, Pending, Receive;
      ReceiveKeeps(g, w.throws, w.a, w.toA, root);
    } else if !w.a.started {
      m := Starts(true);
    } else {
      hide IsRoot, WorldOk, Gentle, FirstMoves;
      var k := LongTick(g, w, root);
      m := Ticks(true, None, k);
    }
  }

  /** The first phone plays everything it was sent. */
  lemma {:induction false} CatchUp(g: Game, w: World, root: real -> real) returns (v: World, n: nat)
    requires IsRoot(root) && WorldOk(g, w, root)
    ensures Reaches(g, w, v, n, root) && WorldOk(g, v, root) && Idle(v) && v == w.(a := v.a, toA := v.toA)
    decreases Todo(w)
  {
    v, n := w, 0;
    hide IsRoot, WorldOk, Gentle, FirstMoves, Todo, Possible;
    if !Idle(w) {
      var m := NextMove(g, w, root);
      StepKeeps(g, w, m, root);
      var next := Moved(g, w, m, root);
      OneMove(g, w, m, root);
      var i: nat;
      v, i := CatchUp(g, next, root);
      ReachesOn(g, w, next, v, 1, i, root);
      n := 1 + i;
    }
  }

  /** Both phones have played every throw: they hold the same board. */
  lemma BothIdle(g: Game, w: World, root: real -> real)
    requires IsRoot(root) && WorldOk(g, w, root) && Idle(w) && Idle(Swapped(w))
    ensures SameGame(w.a, w.b)
  {
    hide IsRoot, Board, History;
    assert w.throws[..|w.throws|] == w.throws;
  }

  lemma SwappedOk(g: Game, w: World, root: real -> real)
    requires IsRoot(root) && WorldOk(g, w, root)
    ensures WorldOk(g, Swapped(w), root) && Swapped(Swapped(w)) == w
  {
    hide IsRoot, Local, History;
  }

  lemma StillTogether(g: Game, w: World, root: real -> real)
    requires IsRoot(root) && WorldOk(g, w, root)
    ensures CanAgree(g, w, root)
  {
    hide IsRoot, WorldOk, SameGame, Reaches;
    var v, m := CatchUp(g, w, root);
    SwappedOk(g, v, root);
    var u, n := CatchUp(g, Swapped(v), root);
    SwappedOk(g, u, root);
    ReachesSwapped(g, v, u, n, root);
    ReachesOn(g, w, v, Swapped(u), m, n, root);
    BothIdle(g, Swapped(u), root);
  }

  // ---------- after a fast throw they never agree again ----------

  /** A message the phone that has N throws will not take. */
  predicate Refused(g: Game, N: nat, m: Message, root: real -> real) { m.n > N || (m.n == N && TooFast(g, m.t, root)) }

  /**
    The first phone made throw N too fast. The other one has at most the N throws before it, takes in those still under
    way, and refuses all that come after; it never gets its turn again.
   */
  ghost predicate Parted(g: Game, w: World, N: nat, root: real -> real)
    requires IsRoot(root)
  {
    && N < |w.throws| && w.a.me == 1 - w.b.me && WhoOf(g, N) == w.a.me && w.a.st.n > N && w.toA == []
    && History(g, w.throws[..N], root) && !Board(g, w.throws[..N], root).over
    && exists k: nat :: k <= |w.toB| && Behind(g, w, N, k, root)
  }

  /** The last k messages under way are those to be refused; none was before the others arrived. */
  ghost predicate Behind(g: Game, w: World, N: nat, k: nat, root: real -> real)
    requires IsRoot(root) && k <= |w.toB| && N <= |w.throws|
  {
    && N + w.b.rejected + k == |w.throws| && (w.b.rejected > 0 ==> k == |w.toB|)
    && Local(g, w.throws[..N], w.b, w.toB[..|w.toB| - k], root)
    && forall i :: |w.toB| - k <= i < |w.toB| ==> Refused(g, N, w.toB[i], root)
  }

  /** What anyone can see of it: the boards count different throws, and what arrives from throw N on is rejected. */
  predicate Split(w: World, N: nat) {
    && w.b.st.n <= N < w.a.st.n && N < |w.throws|
    && w.b.rejected == if |w.throws| - |w.toB| > N then |w.throws| - |w.toB| - N else 0
  }

  lemma PartedSplit(g: Game, w: World, N: nat, root: real -> real)
    requires IsRoot(root) && Parted(g, w, N, root)
    ensures Split(w, N) && !SameGame(w.a, w.b)
  {
    hide IsRoot, History, Board, InStep, WhoOf, Refused;
  }

  lemma {:induction false} WorkOffCount(g: Game, ph: Phone, root: real -> real)
    ensures WorkOff(g, ph, root).me == ph.me && WorkOff(g, ph, root).st.n >= ph.st.n
    decreases |ph.queue|
  {
    hide Towards, TurnOf, Sq, Shrunk, Stone;
    if ph.started && !ph.st.rolling && ph.queue != [] { WorkOffCount(g, Rejected(ph.(queue := ph.queue[1..])), root); }
  }

  /** A tick never takes a throw back, and what it sends carries a number not yet used. */
  lemma TickCount(g: Game, ph: Phone, input: Option<Throw>, k: nat, root: real -> real)
    requires IsRoot(root)
    ensures var t := Tick(g, ph, input, k, root);
      t.ph.me == ph.me && t.ph.st.n >= ph.st.n
        && (t.sent.Some? ==> t.sent.value.n >= ph.st.n && t.ph.st.n > t.sent.value.n)
  {
    hide IsRoot, OwnThrow, Launched;
    WorkOffCount(g, ph, root);
    var p := WorkOff(g, ph, root);
    hide WorkOff, Rolled;
    var t := OwnThrow(g, p, input);
    if t.None? {
      RolledPost(g, p, k, root);
    } else {
      LaunchedShape(g, p.st, p.me, t.value, root);
      RolledPost(g, p.(st := Launched(g, p.st, p.me, t.value, root)), k, root);
    }
  }

  /** The fast throw itself. */
  lemma FastThrow(g: Game, w: World, m: Move, root: real -> real)
    requires IsRoot(root) && WorldOk(g, w, root) && m.first && !Gentle(g, w, m, root)
    ensures Parted(g, FirstMoves(g, w, m, root), |w.throws|, root)
  {
    hide IsRoot, History, InStep, WorkOff, OwnThrow, Launched, Rolled, TooFast, WhoOf, Board, Pending;
    var N := |w.throws|;
    var p := WorkOff(g, w.a, root);
    WorkOffKeeps(g, w.throws, w.a, w.toA, root);
    var t := OwnThrow(g, p, m.input);
    OwnThrowIsNext(g, w.throws, p, w.toA, m.input, root);
    LaunchedShape(g, p.st, p.me, t.value, root);
    RolledPost(g, p.(st := Launched(g, p.st, p.me, t.value, root)), m.k, root);
    var v := FirstMoves(g, w, m, root);
    assert v.throws[..N] == w.throws && v.toB[..|v.toB| - 1] == w.toB;
    assert Behind(g, v, N, 1, root);
  }

  /** Whatever the first phone does: it never hears of it, and its further throws are refused too. */
  lemma ThrowerMoves(g: Game, w: World, N: nat, m: Move, root: real -> real)
    requires IsRoot(root) && Parted(g, w, N, root) && m.first && Possible(w, m)
    ensures Parted(g, FirstMoves(g, w, m, root), N, root)
  {
    hide IsRoot, History, Local, Tick, TooFast, WhoOf, Board;
    var k: nat :| k <= |w.toB| && Behind(g, w, N, k, root);
    var v := FirstMoves(g, w, m, root);
    if m.Ticks? { TickCount(g, w.a, m.input, m.k, root); }
    assert v.throws[..N] == w.throws[..N];
    if v.toB == w.toB {
      assert Behind(g, v, N, k, root);
    } else {
      assert v.toB[..|v.toB| - (k + 1)] == w.toB[..|w.toB| - k];
      assert Behind(g, v, N, k + 1, root);
    }
  }

  /** The other phone waits for throw N and makes none itself. */
  lemma WaitsInVain(g: Game, throws: seq<Throw>, ph: Phone, chan: seq<Message>, input: Option<Throw>, k: nat,
      root: real -> real)
    requires IsRoot(root) && History(g, throws, root) && Local(g, throws, ph, chan, root)
    requires WhoOf(g, |throws|) == 1 - ph.me
    ensures var t := Tick(g, ph, input, k, root);
      t.sent.None? && Local(g, throws, t.ph, chan, root) && t.ph.me == ph.me && t.ph.rejected == ph.rejected
  {
    hide IsRoot, History, InStep, WorkOff, OwnThrow, Launched, Rolled, TooFast, WhoOf, Board;
    if !ph.over {
      var p := WorkOff(g, ph, root);
      WorkOffKeeps(g, throws, ph, chan, root);
      if OwnThrow(g, p, input).Some? { OwnThrowIsNext(g, throws, p, chan, input, root); }
      RolledKeeps(g, throws, p, k, root);
    }
  }

  /** The other phone never ends the match: it has at most N throws, and the board after them is not over. */
  lemma NeverOver(g: Game, throws: seq<Throw>, ph: Phone, chan: seq<Message>, root: real -> real)
    requires IsRoot(root) && History(g, throws, root) && Local(g, throws, ph, chan, root)
    requires !Board(g, throws, root).over
    ensures !ph.over
  {
    hide IsRoot, History, Board, Settle, WhoOf;
    assert throws[..|throws|] == throws;
    if ph.st.n < |throws| { NotOver(g, throws, ph, root); }
  }

  lemma Refuses(g: Game, throws: seq<Throw>, ph: Phone, m: Message, root: real -> real)
    requires IsRoot(root) && History(g, throws, root) && Local(g, throws, ph, [], root) && !Board(g, throws, root).over
    requires Refused(g, |throws|, m, root)
    ensures Receive(g, ph, m, root) == Rejected(ph) && Local(g, throws, Rejected(ph), [], root)
  {
    hide IsRoot, History, Board, InStep, WhoOf, FromX, TooFast, TurnOf;
    NeverOver(g, throws, ph, [], root);
    SameBoard(g, throws, ph, Rejected(ph), root);
  }

  /** An arrival at the other phone. */
  lemma ArrivalParted(g: Game, w: World, N: nat, root: real -> real)
    requires IsRoot(root) && Parted(g, w, N, root) && w.toB != []
    ensures Parted(g, w.(b := Receive(g, w.b, w.toB[0], root), toB := w.toB[1..]), N, root)
  {
    hide IsRoot, History, Local, WhoOf, Board, Receive, Refused;
    var k: nat :| k <= |w.toB| && Behind(g, w, N, k, root);
    var v := w.(b := Receive(g, w.b, w.toB[0], root), toB := w.toB[1..]);
    var H, pre := w.throws[..N], w.toB[..|w.toB| - k];
    if k < |w.toB| {
      ReceiveKeeps(g, H, w.b, pre, root);
      assert v.toB[..|v.toB| - k] == pre[1..];
      assert Behind(g, v, N, k, root);
    } else {
      assert pre == [] && v.toB[..|v.toB| - (k - 1)] == [];
      Refuses(g, H, w.b, w.toB[0], root);
      assert Behind(g, v, N, k - 1, root);
    }
  }

  lemma OtherMoves(g: Game, w: World, N: nat, m: Move, root: real -> real)
    requires IsRoot(root) && Parted(g, w, N, root) && !m.first && Possible(w, m)
    ensures Parted(g, Swapped(FirstMoves(g, Swapped(w), m, root)), N, root)
  {
    hide IsRoot, History, Local, WhoOf, Board, Receive, Refused, Tick;
    if m.Arrives? {
      ArrivalParted(g, w, N, root);
    } else {
      var k: nat :| k <= |w.toB| && Behind(g, w, N, k, root);
      var H, pre := w.throws[..N], w.toB[..|w.toB| - k];
      OtherSeat(g, H, w.b, pre, root);
      if m.Ticks? { WaitsInVain(g, H, w.b, pre, m.input, m.k, root); }
      var v := Swapped(FirstMoves(g, Swapped(w), m, root));
      assert v == w.(b := v.b);
      assert Behind(g, v, N, k, root);
    }
  }

  lemma OtherSeat(g: Game, throws: seq<Throw>, ph: Phone, chan: seq<Message>, root: real -> real)
    requires IsRoot(root) && Local(g, throws, ph, chan, root)
    ensures Local(g, throws, ph.(started := true), chan, root)
  {
    hide IsRoot, InStep, WhoOf;
    SameBoard(g, throws, ph, ph.(started := true), root);
  }

  /** No move of either phone brings them together again. */
  lemma PartedKeeps(g: Game, w: World, N: nat, m: Move, root: real -> real)
    requires IsRoot(root) && Parted(g, w, N, root) && Possible(w, m)
    ensures Parted(g, Moved(g, w, m, root), N, root)
  {
    hide IsRoot, Parted, FirstMoves;
    if m.first { ThrowerMoves(g, w, N, m, root); } else { OtherMoves(g, w, N, m, root); }
  }

  // ---------- whole runs ----------

  function From(w: World, first: bool): World { if first then w else Swapped(w) }

  lemma EitherKeeps(g: Game, w: World, N: nat, first: bool, m: Move, root: real -> real)
    requires IsRoot(root) && Parted(g, From(w, first), N, root) && Possible(w, m)
    ensures Parted(g, From(Moved(g, w, m, root), first), N, root)
  {
    hide IsRoot, Parted, Moved;
    if first {
      PartedKeeps(g, w, N, m, root);
    } else {
      assert Swapped(Swapped(w)) == w && Flipped(Flipped(m)) == m;
      FlippedMove(g, Swapped(w), m, root);
      PartedKeeps(g, Swapped(w), N, Flipped(m), root);
    }
  }

  lemma {:induction false} NeverAgain(g: Game, w: World, N: nat, first: bool, v: World, n: nat, root: real -> real)
    requires IsRoot(root) && Parted(g, From(w, first), N, root) && Reaches(g, w, v, n, root)
    ensures !SameGame(v.a, v.b)
    decreases n
  {
    hide IsRoot, Parted, Moved, Possible;
    if n == 0 {
      PartedSplit(g, From(w, first), N, root);
    } else {
      var m :| Possible(w, m) && Reaches(g, Moved(g, w, m, root), v, n - 1, root);
      EitherKeeps(g, w, N, first, m, root);
      NeverAgain(g, Moved(g, w, m, root), N, first, v, n - 1, root);
    }
  }

  lemma {:induction false} PartedSince(g: Game, ws: seq<World>, ms: seq<Move>, root: real -> real, k: nat, i: nat)
    requires IsRoot(root) && Runs(g, ws, ms, root) && k < i < |ws| && GentleRun(g, ws, ms, k, root)
    requires !Gentle(g, ws[k], ms[k], root)
    ensures Parted(g, From(ws[i], ms[k].first), |ws[k].throws|, root)
    decreases i
  {
    hide IsRoot, Parted, Moved, Gentle, Possible;
    if i == k + 1 {
      RunKeeps(g, ws, ms, root, k);
      hide WorldOk;
      FirstPart(g, ws[k], ms[k], root);
    } else {
      PartedSince(g, ws, ms, root, k, i - 1);
      EitherKeeps(g, ws[i - 1], |ws[k].throws|, ms[k].first, ms[i - 1], root);
    }
  }

  lemma FirstPart(g: Game, w: World, m: Move, root: real -> real)
    requires IsRoot(root) && WorldOk(g, w, root) && Possible(w, m) && !Gentle(g, w, m, root)
    ensures Parted(g, From(Moved(g, w, m, root), m.first), |w.throws|, root)
  {
    hide IsRoot, WorldOk, Parted, FirstMoves, Tick, TooFast;
    if m.first {
      FastThrow(g, w, m, root);
    } else {
      SwappedOk(g, w, root);
      SameMove(g, Swapped(w), m, root);
      FastThrow(g, Swapped(w), Flipped(m), root);
    }
  }

  lemma SameMove(g: Game, w: World, m: Move, root: real -> real)
    requires IsRoot(root) && (m.Arrives? ==> w.toA != [])
    ensures FirstMoves(g, w, m, root) == FirstMoves(g, w, Flipped(m), root)
  {
    hide IsRoot, Tick, Receive;
  }

  /**
    From the first throw on that is faster than the receiver allows, whatever both do: the receiver stays at the throws
    before it, rejects that one on arrival and every later one, the thrower counts on, and the boards never agree again.
   */
  lemma Parting(g: Game, ws: seq<World>, ms: seq<Move>, root: real -> real, k: nat, i: nat)
    requires IsRoot(root) && Runs(g, ws, ms, root) && k < i < |ws| && GentleRun(g, ws, ms, k, root)
    requires !Gentle(g, ws[k], ms[k], root)
    ensures Split(From(ws[i], ms[k].first), |ws[k].throws|) && !CanAgree(g, ws[i], root)
  {
    hide IsRoot, Parted, Runs, Gentle, GentleRun, Split, Reaches;
    RunStarts(g, ws, ms, root);
    var N := |ws[k].throws|;
    PartedSince(g, ws, ms, root, k, i);
    PartedSplit(g, From(ws[i], ms[k].first), N, root);
    forall v, n | Reaches(g, ws[i], v, n, root)
      ensures !SameGame(v.a, v.b)
    {
      NeverAgain(g, ws[i], N, ms[k].first, v, n, root);
    }
  }

  lemma {:induction false} FirstFast(g: Game, ws: seq<World>, ms: seq<Move>, n: nat, root: real -> real)
      returns (k: nat)
    requires IsRoot(root) && n <= |ms| && n <= |ws| && !GentleRun(g, ws, ms, n, root)
    ensures k < n && GentleRun(g, ws, ms, k, root) && !Gentle(g, ws[k], ms[k], root)
    decreases n
  {
    hide IsRoot, Gentle;
    if GentleRun(g, ws, ms, n - 1, root) { k := n - 1; } else { k := FirstFast(g, ws, ms, n - 1, root); }
  }

  /** On every run, at its end: the boards can still come to agree if and only if no throw was too fast. */
  lemma AgreeIff(g: Game, ws: seq<World>, ms: seq<Move>, root: real -> real)
    requires IsRoot(root) && Runs(g, ws, ms, root)
    ensures CanAgree(g, ws[|ms|], root) <==> GentleRun(g, ws, ms, |ms|, root)
  {
    hide IsRoot, CanAgree, WorldOk, Split, GentleRun;
    RunStarts(g, ws, ms, root);
    if GentleRun(g, ws, ms, |ms|, root) {
      RunKeeps(g, ws, ms, root, |ms|);
      StillTogether(g, ws[|ms|], root);
    } else {
      var k := FirstFast(g, ws, ms, |ms|, root);
      Parting(g, ws, ms, root, k, |ms|);
    }
  }

  /** Every throw above the limit that the inviter's phone lets out as its first one parts the boards for good. */
  lemma FastStart(g: Game, t: Throw, k: nat, root: real -> real) returns (ws: seq<World>)
    requires IsRoot(root) && Counts(0, t) && TooFast(g, t, root)
    ensures Runs(g, ws, [Starts(true), Ticks(true, Some(t), k)], root) && !CanAgree(g, ws[2], root)
  {
    hide IsRoot, CanAgree, Split, Tick;
    var w := World(Fresh(g, 0), Fresh(g, 1), [], [], []);
    var ms := [Starts(true), Ticks(true, Some(t), k)];
    var v := Moved(g, w, ms[0], root);
    ws := [w, v, Moved(g, v, ms[1], root)];
    FirstThrow(g, t, k, root);
    Parting(g, ws, ms, root, 1, 2);
  }

  lemma FirstThrow(g: Game, t: Throw, k: nat, root: real -> real)
    requires IsRoot(root) && Counts(0, t) && TooFast(g, t, root)
    ensures var sent := Tick(g, Fresh(g, 0).(started := true), Some(t), k, root).sent;
      sent.Some? && TooFast(g, sent.value.t, root)
  {
    hide IsRoot, Rolled, FromX, Launched;
  }

  /** There are such throws: straight ahead at 1600 a second is above either game's limit. */
  lemma FastOnes(g: Game, x: real, root: real -> real)
    requires IsRoot(root)
    ensures Counts(0, Throw(x, 0.0, -1600.0)) && TooFast(g, Throw(x, 0.0, -1600.0), root)
  {
    var q := Sq(0.0) + Sq(-1600.0);
    assert q == 2560000.0;
    var r := root(q);
    assert Sq(r) == q;
    if r < 1550.0 { LessProduct(r, 1550.0, r * r, r * 1550.0, 1550.0 * 1550.0); }
  }
}
