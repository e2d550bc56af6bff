/** Two phones, two ordered channels: after every settled throw both hold the same board and mirrored scores. */
module TurnLockstep {
  import opened Options
  import opened Discs
  import opened Reals
  import opened TurnGames

  // ---------- the reference: one board, one throw after the other ----------

  /** The discs when they have come to rest. */
  ghost function Resting(D: Rules, ds: seq<Disc>, root: real -> real): seq<Disc>
    requires Physical(D) && IsRoot(root)
    decreases Steps(D, ds, root)
  {
    var r := Step(D, ds, root);
    StepsDrop(D, ds, root);
    if r.moving then Resting(D, r.list, root) else r.list
  }

  ghost function Steps(D: Rules, ds: seq<Disc>, root: real -> real): nat
    requires Physical(D) && IsRoot(root)
  {
    StepLoses(D, ds, root);
    EnergyNotNegative(ds);
    Below(Energy(ds), Loss(D))
  }

  lemma StepsDrop(D: Rules, ds: seq<Disc>, root: real -> real)
    requires Physical(D) && IsRoot(root)
    ensures Step(D, ds, root).moving ==> Steps(D, Step(D, ds, root).list, root) < Steps(D, ds, root)
  {
    hide Step, IsRoot, Total, Loss, Physical, Below;
    StepLoses(D, ds, root);
    EnergyNotNegative(ds);
    var r := Step(D, ds, root);
    StepLoses(D, r.list, root);
    if r.moving { BelowDrops(Energy(r.list), Energy(ds), Loss(D)); }
  }

  /** The board in the inviter's frame, as the inviter's phone would count: no queue, nothing rejected. */
  ghost function Board(g: Game, throws: seq<Throw>, root: real -> real): Phone
    requires IsRoot(root)
  {
    if throws == [] then Fresh(g, 0)
    else Played(g, Board(g, throws[..|throws| - 1], root), throws[|throws| - 1], root)
  }

  /** One whole throw: launched, rolled out, settled. */
  ghost function Played(g: Game, b: Phone, t: Throw, root: real -> real): Phone
    requires IsRoot(root)
  {
    Settle(g, b.(st := RestingState(g, Launched(g, b.st, TurnOf(g, b.st, b.st.n), t, root), root)), root)
  }

  ghost function RestingState(g: Game, st: Shared, root: real -> real): Shared
    requires IsRoot(root)
  {
    RulesHold(g);
    st.(list := Resting(RulesOf(g), st.list, root))
  }

  lemma RulesHold(g: Game)
    ensures Physical(RulesOf(g))
  {
    KnownRules();
  }

  /** A phone as the inviter's phone would be: scores in the shared order, nothing waiting. */
  function Turned(ph: Phone): Phone {
    Phone(0, false, ph.over, ph.st, if ph.me == 0 then ph.mine else ph.theirs, if ph.me == 0 then ph.theirs
      else ph.mine, [], 0)
  }

  /** Every stone that can score belongs to one of the two. */
  predicate SeatsOk(g: Game, st: Shared) {
    st.shooterOf in {0, 1} && (g.Stock? ==> forall i :: 0 <= i < |st.list| ==> st.list[i].p in {0, 1})
  }

  lemma PointTurned(g: Game, ph: Phone, p: int, k: nat)
    requires ph.me in {0, 1} && p in {0, 1}
    ensures Point(g, Turned(ph), p, k) == Turned(Point(g, ph, p, k)) && SamePost(ph, Point(g, ph, p, k))
    ensures Point(g, ph, p, k).st == ph.st
  {
    hide WinAt;
  }

  lemma {:induction false} FieldOwners(ds: seq<Disc>)
    requires forall i :: 0 <= i < |ds| ==> ds[i].p in {0, 1}
    ensures forall i :: 0 <= i < |OnField(ds)| ==> OnField(ds)[i].p in {0, 1}
  {
    if ds != [] { FieldOwners(ds[..|ds| - 1]); }
  }

  lemma StockTurned(ph: Phone, root: real -> real)
    requires ph.me in {0, 1} && SeatsOk(Stock, ph.st)
    ensures SettleStock(Turned(ph), root) == Turned(SettleStock(ph, root)) && SamePost(ph, SettleStock(ph, root))
  {
    FieldOwners(ph.st.list);
    hide OnField, RoundWon, TurnOf, StockRound;
    var list := OnField(ph.st.list);
    WonTurned(ph.(st := ph.st.(list := list)), list, root);
  }

  lemma WonTurned(ph: Phone, list: seq<Disc>, root: real -> real)
    requires ph.me in {0, 1} && forall i :: 0 <= i < |list| ==> list[i].p in {0, 1}
    ensures RoundWon(Turned(ph), list, root) == Turned(RoundWon(ph, list, root))
    ensures SamePost(ph, RoundWon(ph, list, root))
    ensures RoundWon(ph, list, root).st == ph.st
  {
    var k := Nearest(list, root);
    if k >= 0 { PointTurned(Stock, ph, list[k].p, 1); }
    hide Point;
  }

  lemma MurmelTurned(g: Game, ph: Phone)
    requires ph.me in {0, 1} && SeatsOk(g, ph.st)
    ensures SettleMurmel(g, Turned(ph)) == Turned(SettleMurmel(g, ph)) && SamePost(ph, SettleMurmel(g, ph))
  {
    hide Point, KnockedOut, InRing, RingAt;
    PointTurned(g, ph, ph.st.shooterOf, KnockedOut(ph.st, ph.st.list));
  }

  /** Settling a throw does the same on both phones, with the scores the other way round. */
  lemma SettleTurned(g: Game, ph: Phone, root: real -> real)
    requires ph.me in {0, 1} && SeatsOk(g, ph.st)
    ensures Settle(g, Turned(ph), root) == Turned(Settle(g, ph, root)) && SamePost(ph, Settle(g, ph, root))
  {
    hide SettleStock, SettleMurmel;
    var q := ph.(st := ph.st.(rolling := false));
    if g.Stock? { StockTurned(q, root); } else { MurmelTurned(g, q); }
  }

  // ---------- stones keep their owner ----------

  predicate SameOwners(a: seq<Disc>, b: seq<Disc>) { |a| == |b| && forall i :: 0 <= i < |a| ==> a[i].p == b[i].p }

  lemma SlidOwner(D: Rules, d: Disc, root: real -> real)
    ensures Slid(D, d, root).p == d.p
  {
    hide Shrunk, Sq;
  }

  lemma MeetOwners(D: Rules, a: Disc, b: Disc, root: real -> real)
    requires IsRoot(root)
    ensures Meet(D, a, b, root).a.p == a.p && Meet(D, a, b, root).b.p == b.p
  {
    hide Shrunk, Sq, Part, Along, Impulse, Touch;
  }

  lemma {:induction false} ClashOwners(D: Rules, ds: seq<Disc>, i: nat, j: nat, root: real -> real)
    requires IsRoot(root) && i < j
    ensures SameOwners(Clashes(D, ds, i, j, root).list, ds)
    decreases |ds| - i, |ds| - j
  {
    hide Meet, IsRoot;
    if i < |ds| {
      if j >= |ds| {
        ClashOwners(D, ds, i + 1, i + 2, root);
      } else {
        MeetOwners(D, ds[i], ds[j], root);
        ClashOwners(D, Clash(D, ds, i, j, root).list, i, j + 1, root);
      }
    }
  }

  lemma StepOwners(D: Rules, ds: seq<Disc>, root: real -> real)
    requires IsRoot(root)
    ensures SameOwners(Step(D, ds, root).list, ds)
  {
    hide Slid, Clashes, AnyRolls, IsRoot;
    var slid := SlidAll(D, ds, root);
    forall i | 0 <= i < |ds| ensures slid[i].p == ds[i].p { SlidOwner(D, ds[i], root); }
    ClashOwners(D, slid, 0, 1, root);
  }

  lemma {:induction false} RestingOwners(D: Rules, ds: seq<Disc>, root: real -> real)
    requires Physical(D) && IsRoot(root)
    ensures SameOwners(Resting(D, ds, root), ds)
    decreases Steps(D, ds, root)
  {
    hide Step, Steps, IsRoot, Physical;
    StepOwners(D, ds, root);
    StepsDrop(D, ds, root);
    if Step(D, ds, root).moving { RestingOwners(D, Step(D, ds, root).list, root); }
  }

  // ---------- what the board is like after m throws ----------

  /** Whose throw the n-th is, in closed form. */
  function WhoOf(g: Game, n: nat): int { if g.Stock? then (n / 6 + n % 6) % 2 else n % 2 }

  /** Never three in a row. */
  lemma NotThree(g: Game, n: nat)
    ensures !(WhoOf(g, n) == WhoOf(g, n + 1) == WhoOf(g, n + 2))
    ensures WhoOf(g, n) in {0, 1}
  {
    if g.Stock? {
      var q, r := n / 6, n % 6;
      assert n == 6 * q + r;
      if r <= 4 {
        SixEach(q, r + 1);
        Alternates(q + r);
      } else {
        SixEach(q + 1, 0);
        SixEach(q + 1, 1);
        Alternates(q + 1);
      }
    } else {
      Alternates(n);
    }
  }

  lemma Alternates(k: nat)
    ensures k % 2 != (k + 1) % 2
  {
  }

  predicate RoundOk(g: Game, st: Shared) {
    g.Stock? ==> st.base == 6 * st.round && st.first == st.round % 2 && st.n == st.base + st.thrown
  }

  predicate BoardOk(g: Game, b: Phone, m: nat) {
    && b == Turned(b) && b.st.n == m && !b.st.rolling && SeatsOk(g, b.st)
    && (!b.over ==> RoundOk(g, b.st) && (g.Stock? ==> b.st.thrown < 6) && b.st.turn == WhoOf(g, m))
  }

  lemma TurnIsWho(g: Game, st: Shared)
    requires RoundOk(g, st) && (g.Stock? ==> st.thrown < 6)
    ensures TurnOf(g, st, st.n) == WhoOf(g, st.n)
  {
    if g.Stock? {
      SixEach(st.round, st.thrown);
      Parity(st.round, st.thrown);
    }
  }

  lemma SixEach(q: nat, r: nat)
    requires r < 6
    ensures (6 * q + r) / 6 == q && (6 * q + r) % 6 == r
  {
  }

  lemma Parity(q: nat, r: nat)
    ensures (q % 2 + r) % 2 == (q + r) % 2
  {
  }

  lemma NextRound(st: Shared)
    requires RoundOk(Stock, st) && st.thrown == 6
    ensures RoundOk(Stock, StockRound(st, st.round + 1)) && StockRound(st, st.round + 1).turn == WhoOf(Stock, st.n)
  {
    assert st.n == 6 * (st.round + 1);
    assert st.n / 6 == st.round + 1 && st.n % 6 == 0;
  }

  /** A board while a throw rolls. */
  predicate RollingOk(g: Game, b: Phone, m: nat) {
    && b == Turned(b) && !b.over && b.st.n == m && m > 0 && SeatsOk(g, b.st) && RoundOk(g, b.st)
       && (g.Stock? ==> 0 < b.st.thrown <= 6)
  }

  lemma LaunchedOk(g: Game, b: Phone, t: Throw, root: real -> real, m: nat)
    requires BoardOk(g, b, m) && !b.over
    ensures RollingOk(g, b.(st := Launched(g, b.st, TurnOf(g, b.st, m), t, root)), m + 1)
  {
    TurnIsWho(g, b.st);
    NotThree(g, m);
    hide Shrunk, Sq, WhoOf;
  }

  lemma SettleStockOk(b: Phone, root: real -> real, m: nat)
    requires RollingOk(Stock, b, m) && !b.st.rolling
    ensures BoardOk(Stock, SettleStock(b, root), m)
  {
    FieldOwners(b.st.list);
    var list := OnField(b.st.list);
    var st := b.st.(list := list);
    StockTurned(b, root);
    WonTurned(b.(st := st), list, root);
    hide OnField, RoundWon;
    if st.thrown < 6 { TurnIsWho(Stock, st); } else { NextRound(st); }
    hide WhoOf, TurnOf;
  }

  lemma SettleMurmelOk(g: Game, b: Phone, m: nat)
    requires g.Murmel? && RollingOk(g, b, m) && !b.st.rolling
    ensures BoardOk(g, SettleMurmel(g, b), m)
  {
    MurmelTurned(g, b);
    PointTurned(g, b, b.st.shooterOf, KnockedOut(b.st, b.st.list));
    hide KnockedOut, InRing, Point, RingAt;
  }

  lemma SettleOk(g: Game, b: Phone, root: real -> real, m: nat)
    requires RollingOk(g, b, m)
    ensures BoardOk(g, Settle(g, b, root), m)
  {
    hide SettleStock, SettleMurmel, BoardOk;
    var q := b.(st := b.st.(rolling := false));
    if g.Stock? { SettleStockOk(q, root, m); } else { SettleMurmelOk(g, q, m); }
  }

  lemma RestingOk(g: Game, b: Phone, root: real -> real, m: nat)
    requires IsRoot(root) && RollingOk(g, b, m)
    ensures RollingOk(g, b.(st := RestingState(g, b.st, root)), m)
  {
    hide IsRoot, Resting;
    RulesHold(g);
    RestingOwners(RulesOf(g), b.st.list, root);
  }

  lemma PlayedOk(g: Game, b: Phone, t: Throw, root: real -> real, m: nat)
    requires IsRoot(root) && BoardOk(g, b, m) && !b.over
    ensures BoardOk(g, Played(g, b, t, root), m + 1)
  {
    hide IsRoot, BoardOk, RollingOk, RestingState, Launched, Settle;
    var l := b.(st := Launched(g, b.st, TurnOf(g, b.st, m), t, root));
    NumberIs(g, b, m);
    LaunchedOk(g, b, t, root, m);
    RestingOk(g, l, root, m + 1);
    SettleOk(g, l.(st := RestingState(g, l.st, root)), root, m + 1);
  }

  lemma NumberIs(g: Game, b: Phone, m: nat)
    requires BoardOk(g, b, m)
    ensures b.st.n == m
  {
  }

  /** No throw is made on a board that is over. */
  ghost predicate Ongoing(g: Game, throws: seq<Throw>, root: real -> real)
    requires IsRoot(root)
  {
    forall k :: 0 <= k < |throws| ==> !Board(g, throws[..k], root).over
  }

  lemma {:induction false} BoardKeeps(g: Game, throws: seq<Throw>, root: real -> real)
    requires IsRoot(root) && Ongoing(g, throws, root)
    ensures BoardOk(g, Board(g, throws, root), |throws|)
    decreases |throws|
  {
    hide IsRoot, Played;
    if throws != [] {
      var most := throws[..|throws| - 1];
      forall k | 0 <= k < |most| ensures !Board(g, most[..k], root).over { assert most[..k] == throws[..k]; }
      BoardKeeps(g, most, root);
      PlayedOk(g, Board(g, most, root), throws[|throws| - 1], root, |most|);
    } else {
      hide Board;
      FreshOk(g, root);
    }
  }

  lemma FreshOk(g: Game, root: real -> real)
    requires IsRoot(root)
    ensures BoardOk(g, Board(g, [], root), 0)
  {
    hide IsRoot;
  }

  // ---------- one phone against the throws made so far ----------

  /** A throw an honest phone may send: from the line, towards the other side, within the receiver's limit. */
  predicate Fair(g: Game, who: int, t: Throw, root: real -> real) {
    t.x == FromX(g, t.x) && Towards(who, t) && !TooFast(g, t, root)
  }

  ghost predicate History(g: Game, throws: seq<Throw>, root: real -> real)
    requires IsRoot(root)
  {
    Ongoing(g, throws, root) && forall k :: 0 <= k < |throws| ==> Fair(g, WhoOf(g, k), throws[k], root)
  }

  /** The throws this phone has not played yet are exactly those waiting and those on their way, all the other's. */
  predicate Pending(g: Game, throws: seq<Throw>, ph: Phone, chan: seq<Message>) {
    && ph.st.n <= |throws| && ph.st.n + |ph.queue| + |chan| == |throws|
    && (forall k :: 0 <= k < |ph.queue| ==> ph.queue[k] == throws[ph.st.n + k])
    && (forall k :: 0 <= k < |chan| ==> chan[k] == Message(ph.st.n + |ph.queue| + k, throws[ph.st.n + |ph.queue| + k]))
    && (forall k :: ph.st.n <= k < |throws| ==> WhoOf(g, k) == 1 - ph.me)
  }

  /** The phone's board is the reference board after as many throws, or is on the way there. */
  ghost predicate InStep(g: Game, throws: seq<Throw>, ph: Phone, root: real -> real)
    requires IsRoot(root) && ph.st.n <= |throws|
  {
    if ph.st.rolling then
      && RollingOk(g, Turned(ph), ph.st.n)
      && Settle(g, Turned(ph.(st := RestingState(g, ph.st, root))), root) == Board(g, throws[..ph.st.n], root)
    else Turned(ph) == Board(g, throws[..ph.st.n], root)
  }

  ghost predicate Local(g: Game, throws: seq<Throw>, ph: Phone, chan: seq<Message>, root: real -> real)
    requires IsRoot(root)
  {
    ph.me in {0, 1} && Pending(g, throws, ph, chan) && InStep(g, throws, ph, root)
  }

  /** At most two throws ever wait. */
  lemma AtMostTwoWait(g: Game, throws: seq<Throw>, ph: Phone, chan: seq<Message>)
    requires Pending(g, throws, ph, chan)
    ensures |ph.queue| + |chan| <= 2
  {
    NotThree(g, ph.st.n);
    hide WhoOf;
  }

  /** A phone that is not rolling holds the reference board, and knows whose turn it is. */
  lemma StillBoard(g: Game, throws: seq<Throw>, ph: Phone, root: real -> real)
    requires IsRoot(root) && History(g, throws, root) && ph.st.n <= |throws| && InStep(g, throws, ph, root)
    requires !ph.st.rolling
    ensures BoardOk(g, Turned(ph), ph.st.n)
    ensures !ph.over ==> TurnOf(g, ph.st, ph.st.n) == WhoOf(g, ph.st.n) == ph.st.turn
    ensures ph.st.n < |throws| ==> !ph.over
  {
    hide IsRoot, Board, BoardOk, WhoOf, TurnOf;
    var t := throws[..ph.st.n];
    forall k | 0 <= k < |t| ensures !Board(g, t[..k], root).over { assert t[..k] == throws[..k]; }
    BoardKeeps(g, t, root);
    TurnKnown(g, Turned(ph), ph.st.n);
  }

  lemma TurnKnown(g: Game, b: Phone, m: nat)
    requires BoardOk(g, b, m)
    ensures !b.over ==> TurnOf(g, b.st, m) == WhoOf(g, m) == b.st.turn
  {
    if !b.over { TurnIsWho(g, b.st); }
    hide WhoOf, TurnOf;
  }

  /**
    A throw that left the other phone in its turn, from its line and towards this side is taken in exactly when it is
    within the receiver's limit. The sender does not cut what it sends.
   */
  lemma TakenUnlessTooFast(g: Game, ph: Phone, m: Message, who: int, root: real -> real)
    requires !ph.over && m.n == ph.st.n + |ph.queue| && m.t.x == FromX(g, m.t.x) && Towards(who, m.t) && |ph.queue| < 2
    requires who != ph.me
    requires !ph.st.rolling && ph.queue == [] ==> TurnOf(g, ph.st, ph.st.n) == who
    ensures Receive(g, ph, m, root) == if TooFast(g, m.t, root) then Rejected(ph) else ph.(queue := ph.queue + [m.t])
  {
    hide FromX, TooFast, TurnOf;
  }

  /** Every honest throw is taken in: nothing is rejected. */
  lemma ReceiveKeeps(g: Game, throws: seq<Throw>, ph: Phone, chan: seq<Message>, root: real -> real)
    requires IsRoot(root) && History(g, throws, root) && Local(g, throws, ph, chan, root) && chan != []
    ensures Local(g, throws, Receive(g, ph, chan[0], root), chan[1..], root)
    ensures Receive(g, ph, chan[0], root) == ph.(queue := ph.queue + [chan[0].t])
  {
    hide IsRoot, InStep, BoardOk, WhoOf, TurnOf, TooFast, FromX, Ongoing, Receive;
    AtMostTwoWait(g, throws, ph, chan);
    var i := ph.st.n + |ph.queue|;
    assert chan[0] == Message(i + 0, throws[i]);
    assert Fair(g, WhoOf(g, i), throws[i], root);
    NotOver(g, throws, ph, root);
    if !ph.st.rolling { StillBoard(g, throws, ph, root); }
    TakenUnlessTooFast(g, ph, chan[0], WhoOf(g, i), root);
    QueueGrows(g, throws, ph, chan);
    SameBoard(g, throws, ph, ph.(queue := ph.queue + [throws[i]]), root);
  }

  lemma NotOver(g: Game, throws: seq<Throw>, ph: Phone, root: real -> real)
    requires IsRoot(root) && History(g, throws, root) && ph.st.n < |throws| && InStep(g, throws, ph, root)
    ensures !ph.over
  {
    hide IsRoot, History, Board, Settle;
    if !ph.st.rolling { StillBoard(g, throws, ph, root); }
  }

  lemma QueueGrows(g: Game, throws: seq<Throw>, ph: Phone, chan: seq<Message>)
    requires Pending(g, throws, ph, chan) && chan != []
    ensures Pending(g, throws, ph.(queue := ph.queue + [throws[ph.st.n + |ph.queue|]]), chan[1..])
  {
    hide WhoOf;
    var q := ph.(queue := ph.queue + [throws[ph.st.n + |ph.queue|]]);
    forall k | 0 <= k < |chan| - 1
      ensures chan[1..][k] == Message(q.st.n + |q.queue| + k, throws[q.st.n + |q.queue| + k])
    {
      assert chan[1..][k] == chan[k + 1];
    }
  }

  /** The queue, the start and the count of rejections are no part of the board. */
  lemma SameBoard(g: Game, throws: seq<Throw>, ph: Phone, q: Phone, root: real -> real)
    requires IsRoot(root) && ph.st.n <= |throws| && InStep(g, throws, ph, root)
    requires q == ph.(queue := q.queue, started := q.started, rejected := q.rejected)
    ensures InStep(g, throws, q, root)
  {
    hide IsRoot, Board, Settle, RestingState, RollingOk;
  }

  // ---------- a throw starts on a phone ----------

  /** Launching the next throw of the history puts the phone on its way to the next reference board. */
  lemma LaunchKeeps(g: Game, throws: seq<Throw>, ph: Phone, q: Phone, root: real -> real)
    requires IsRoot(root) && History(g, throws, root) && ph.me in {0, 1} && ph.st.n < |throws|
    requires InStep(g, throws, ph, root)
    requires !ph.st.rolling && !ph.over && SamePostBut(ph, q)
    requires q.st == Launched(g, ph.st, WhoOf(g, ph.st.n), throws[ph.st.n], root)
    ensures q.st.n == ph.st.n + 1 && q.st.rolling && InStep(g, throws, q, root)
  {
    hide IsRoot, BoardOk, WhoOf, TurnOf, Launched, RestingState, Settle, Board, RollingOk, History;
    var n := ph.st.n;
    StillBoard(g, throws, ph, root);
    NumberIs(g, Turned(ph), n);
    LaunchedOk(g, Turned(ph), throws[n], root, n);
    LaunchedShape(g, ph.st, WhoOf(g, n), throws[n], root);
    NextBoard(g, throws, n, root);
    assert Turned(q) == Turned(ph).(st := q.st);
    assert Turned(q.(st := RestingState(g, q.st, root))) == Turned(ph).(st := RestingState(g, q.st, root));
  }

  predicate SamePostBut(ph: Phone, q: Phone) {
    q.me == ph.me && q.over == ph.over && q.mine == ph.mine && q.theirs == ph.theirs
  }

  lemma LaunchedShape(g: Game, st: Shared, p: int, t: Throw, root: real -> real)
    ensures Launched(g, st, p, t, root).n == st.n + 1 && Launched(g, st, p, t, root).rolling
  {
    hide Sq, Shrunk;
  }

  lemma NextBoard(g: Game, throws: seq<Throw>, n: nat, root: real -> real)
    requires IsRoot(root) && n < |throws|
    ensures Board(g, throws[..n + 1], root) == Played(g, Board(g, throws[..n], root), throws[n], root)
  {
    hide IsRoot, Played;
    assert throws[..n + 1][..n] == throws[..n];
  }

  lemma WorkOffKeeps(g: Game, throws: seq<Throw>, ph: Phone, chan: seq<Message>, root: real -> real)
    requires IsRoot(root) && History(g, throws, root) && Local(g, throws, ph, chan, root)
    ensures Local(g, throws, WorkOff(g, ph, root), chan, root)
    ensures WorkOff(g, ph, root).me == ph.me && WorkOff(g, ph, root).rejected == ph.rejected
  {
    hide IsRoot, InStep, WhoOf, TurnOf, Launched, BoardOk, TooFast, FromX, Ongoing;
    if ph.started && !ph.st.rolling && ph.queue != [] {
      var n := ph.st.n;
      StillBoard(g, throws, ph, root);
      assert ph.queue[0] == throws[n + 0];
      assert Fair(g, WhoOf(g, n), throws[n], root);
      var q := WorkOff(g, ph, root);
      assert q == ph.(queue := ph.queue[1..], st := Launched(g, ph.st, WhoOf(g, n), throws[n], root));
      LaunchKeeps(g, throws, ph, q, root);
      QueueShrinks(g, throws, ph, q, chan);
    }
  }

  lemma QueueShrinks(g: Game, throws: seq<Throw>, ph: Phone, q: Phone, chan: seq<Message>)
    requires Pending(g, throws, ph, chan) && ph.queue != [] && q.queue == ph.queue[1..] && q.st.n == ph.st.n + 1
    requires q.me == ph.me
    ensures Pending(g, throws, q, chan)
  {
    hide WhoOf;
    forall k | 0 <= k < |q.queue| ensures q.queue[k] == throws[q.st.n + k] { assert q.queue[k] == ph.queue[k + 1]; }
  }

  // ---------- rolling ----------

  lemma RestingStep(g: Game, st: Shared, root: real -> real)
    requires IsRoot(root)
    ensures var r := Step(RulesOf(g), st.list, root);
      RestingState(g, st, root) == if r.moving then RestingState(g, st.(list := r.list), root) else st.(list := r.list)
  {
    hide IsRoot, Step, Steps;
    RulesHold(g);
    hide Physical;
  }

  lemma StepShape(g: Game, ph: Phone, root: real -> real)
    requires IsRoot(root) && RollingOk(g, Turned(ph), ph.st.n)
    ensures RollingOk(g, Turned(ph.(st := ph.st.(list := Step(RulesOf(g), ph.st.list, root).list))), ph.st.n)
  {
    hide IsRoot, Step;
    StepOwners(RulesOf(g), ph.st.list, root);
  }

  /** Any number of steps: still on the way, or settled on the reference board. */
  lemma {:induction false} RolledKeeps(g: Game, throws: seq<Throw>, ph: Phone, k: nat, root: real -> real)
    requires IsRoot(root) && ph.me in {0, 1} && ph.st.n <= |throws| && InStep(g, throws, ph, root)
    ensures var q := Rolled(g, ph, k, root); SamePost(ph, q) && q.st.n == ph.st.n && InStep(g, throws, q, root)
    decreases k
  {
    hide IsRoot, Step, RollingOk, RestingState, Settle, Board, History;
    if k > 0 && ph.st.rolling {
      var r := Step(RulesOf(g), ph.st.list, root);
      var q := ph.(st := ph.st.(list := r.list));
      RestingStep(g, ph.st, root);
      StepShape(g, ph, root);
      if r.moving {
        RolledKeeps(g, throws, q, k - 1, root);
      } else {
        SettledKeeps(g, throws, q, root);
      }
    }
  }

  lemma SettledKeeps(g: Game, throws: seq<Throw>, q: Phone, root: real -> real)
    requires IsRoot(root) && q.me in {0, 1} && q.st.n <= |throws| && RollingOk(g, Turned(q), q.st.n)
    requires Settle(g, Turned(q), root) == Board(g, throws[..q.st.n], root)
    ensures var s := Settle(g, q, root); SamePost(q, s) && s.st.n == q.st.n && InStep(g, throws, s, root)
  {
    SeatsOfRolling(g, q);
    hide IsRoot, Settle, Board, SeatsOk;
    SettleTurned(g, q, root);
    SettleOk(g, Turned(q), root, q.st.n);
  }

  lemma SeatsOfRolling(g: Game, q: Phone)
    requires RollingOk(g, Turned(q), q.st.n)
    ensures SeatsOk(g, q.st)
  {
  }

  // ---------- an own throw ----------

  lemma {:induction false} BoardOfPrefix(g: Game, throws: seq<Throw>, t: Throw, ph: Phone, root: real -> real)
    requires IsRoot(root) && ph.st.n <= |throws| && InStep(g, throws, ph, root)
    ensures InStep(g, throws + [t], ph, root)
  {
    hide IsRoot, Settle, Board, RollingOk, RestingState;
    assert (throws + [t])[..ph.st.n] == throws[..ph.st.n];
  }

  lemma HistoryGrows(g: Game, throws: seq<Throw>, t: Throw, root: real -> real)
    requires IsRoot(root) && History(g, throws, root) && !Board(g, throws, root).over
    requires Fair(g, WhoOf(g, |throws|), t, root)
    ensures History(g, throws + [t], root)
  {
    hide IsRoot, Board, Fair, WhoOf;
    var all := throws + [t];
    forall k | 0 <= k < |all| ensures !Board(g, all[..k], root).over {
      assert all[..k] == throws[..k];
      assert throws[..|throws|] == throws;
    }
  }

  /** A phone throws only when it is its turn on the newest board. */
  lemma OwnThrowIsNext(g: Game, throws: seq<Throw>, ph: Phone, chan: seq<Message>, input: Option<Throw>,
      root: real -> real)
    requires IsRoot(root) && History(g, throws, root) && Local(g, throws, ph, chan, root)
    requires OwnThrow(g, ph, input).Some?
    ensures ph.st.n == |throws| && chan == [] && ph.queue == [] && !ph.over && !ph.st.rolling
    ensures !Board(g, throws, root).over && WhoOf(g, |throws|) == ph.me
    ensures Fair(g, ph.me, OwnThrow(g, ph, input).value, root) <==> !TooFast(g, OwnThrow(g, ph, input).value, root)
  {
    hide IsRoot, Board, BoardOk, WhoOf, TurnOf, History, FromX;
    StillBoard(g, throws, ph, root);
    FromTheLine(g, input.value.x);
    assert throws[..|throws|] == throws;
  }

  lemma OwnThrowKeeps(g: Game, throws: seq<Throw>, ph: Phone, chan: seq<Message>, input: Option<Throw>,
      root: real -> real)
    requires IsRoot(root) && History(g, throws, root) && Local(g, throws, ph, chan, root)
    requires OwnThrow(g, ph, input).Some? && !TooFast(g, OwnThrow(g, ph, input).value, root)
    ensures var t := OwnThrow(g, ph, input).value;
      && History(g, throws + [t], root) && ph.st.n == |throws| && WhoOf(g, |throws|) == ph.me
      && Local(g, throws + [t], ph.(st := Launched(g, ph.st, ph.me, t, root)), chan, root)
  {
    hide IsRoot, Board, WhoOf, TurnOf, History, Launched, InStep, OwnThrow, Fair, TooFast;
    OwnThrowIsNext(g, throws, ph, chan, input, root);
    var t := OwnThrow(g, ph, input).value;
    HistoryGrows(g, throws, t, root);
    BoardOfPrefix(g, throws, t, ph, root);
    LaunchKeeps(g, throws + [t], ph, ph.(st := Launched(g, ph.st, ph.me, t, root)), root);
  }

  /** For the other phone it is one more throw on the way. */
  lemma OtherKeeps(g: Game, throws: seq<Throw>, t: Throw, ph: Phone, chan: seq<Message>, root: real -> real)
    requires IsRoot(root) && Local(g, throws, ph, chan, root) && WhoOf(g, |throws|) == 1 - ph.me
    ensures Local(g, throws + [t], ph, chan + [Message(|throws|, t)], root)
  {
    hide IsRoot, InStep, WhoOf;
    BoardOfPrefix(g, throws, t, ph, root);
  }

  // ---------- both phones ----------

  /** Both phones, the two ordered channels, and every throw made so far. */
  datatype World = World(a: Phone, b: Phone, toA: seq<Message>, toB: seq<Message>, throws: seq<Throw>)

  datatype Move = Starts(first: bool) | Arrives(first: bool) | Ticks(first: bool, input: Option<Throw>, k: nat)

  /** Any finger movement, any number of steps a tick; messages arrive in order. */
  predicate Possible(w: World, m: Move) {
    m.Arrives? ==> if m.first then w.toA != [] else w.toB != []
  }

  /** The throw this move makes, if it makes one, is within the receiver's limit. */
  predicate Gentle(g: Game, w: World, m: Move, root: real -> real)
    requires IsRoot(root)
  {
    m.Ticks? ==>
      var sent := Tick(g, if m.first then w.a else w.b, m.input, m.k, root).sent;
      sent.Some? ==> !TooFast(g, sent.value.t, root)
  }

  function Swapped(w: World): World { World(w.b, w.a, w.toB, w.toA, w.throws) }

  /** The move of the first phone of a world. */
  function FirstMoves(g: Game, w: World, m: Move, root: real -> real): World
    requires IsRoot(root) && (m.Arrives? ==> w.toA != [])
  {
    match m
    case Starts(_) => w.(a := w.a.(started := true))
    case Arrives(_) => w.(a := Receive(g, w.a, w.toA[0], root), toA := w.toA[1..])
    case Ticks(_, input, k) =>
      var t := Tick(g, w.a, input, k, root);
      if t.sent.None? then w.(a := t.ph)
      else w.(a := t.ph, toB := w.toB + [t.sent.value], throws := w.throws + [t.sent.value.t])
  }

  function Moved(g: Game, w: World, m: Move, root: real -> real): World
    requires IsRoot(root) && Possible(w, m)
  {
    if m.first then FirstMoves(g, w, m, root) else Swapped(FirstMoves(g, Swapped(w), m, root))
  }

  ghost predicate WorldOk(g: Game, w: World, root: real -> real)
    requires IsRoot(root)
  {
    && w.a.me == 1 - w.b.me && w.a.rejected == w.b.rejected == 0 && History(g, w.throws, root)
    && Local(g, w.throws, w.a, w.toA, root) && Local(g, w.throws, w.b, w.toB, root)
  }

  lemma TickKeeps(g: Game, w: World, input: Option<Throw>, k: nat, root: real -> real)
    requires IsRoot(root) && WorldOk(g, w, root) && Gentle(g, w, Ticks(true, input, k), root)
    ensures WorldOk(g, FirstMoves(g, w, Ticks(true, input, k), root), root)
  {
    hide IsRoot, History, InStep, WorkOff, OwnThrow, Launched, Rolled, TooFast, WhoOf;
    if !w.a.over {
      WorkOffKeeps(g, w.throws, w.a, w.toA, root);
      var p := WorkOff(g, w.a, root);
      var t := OwnThrow(g, p, input);
      if t.None? {
        RolledKeeps(g, w.throws, p, k, root);
      } else {
        OwnThrowKeeps(g, w.throws, p, w.toA, input, root);
        RolledKeeps(g, w.throws + [t.value], p.(st := Launched(g, p.st, p.me, t.value, root)), k, root);
        OtherKeeps(g, w.throws, t.value, w.b, w.toB, root);
      }
    }
  }

  lemma FirstKeeps(g: Game, w: World, m: Move, root: real -> real)
    requires IsRoot(root) && WorldOk(g, w, root) && (m.Arrives? ==> w.toA != [])
    requires m.Ticks? ==> Gentle(g, w, m.(first := true), root)
    ensures WorldOk(g, FirstMoves(g, w, m, root), root)
  {
    hide IsRoot, History, InStep, Tick, TooFast, Receive;
    match m
    case Starts(_) => SameBoard(g, w.throws, w.a, w.a.(started := true), root);
    case Arrives(_) => ReceiveKeeps(g, w.throws, w.a, w.toA, root);
    case Ticks(_, input, k) => TickKeeps(g, w, input, k, root);
  }

  lemma StepKeeps(g: Game, w: World, m: Move, root: real -> real)
    requires IsRoot(root) && WorldOk(g, w, root) && Possible(w, m) && Gentle(g, w, m, root)
    ensures WorldOk(g, Moved(g, w, m, root), root)
  {
    hide IsRoot, History, Local, FirstMoves, TooFast, Tick;
    if m.first { FirstKeeps(g, w, m, root); } else { FirstKeeps(g, Swapped(w), m, root); }
  }

  ghost predicate Runs(g: Game, ws: seq<World>, ms: seq<Move>, root: real -> real)
    requires IsRoot(root)
  {
    && |ws| == |ms| + 1 && ws[0] == World(Fresh(g, 0), Fresh(g, 1), [], [], [])
    && forall i :: 0 <= i < |ms| ==> Possible(ws[i], ms[i]) && ws[i + 1] == Moved(g, ws[i], ms[i], root)
  }

  /** No throw among the first n moves of a run is too fast. */
  ghost predicate GentleRun(g: Game, ws: seq<World>, ms: seq<Move>, n: nat, root: real -> real)
    requires IsRoot(root) && n <= |ms| && n <= |ws|
  {
    forall k :: 0 <= k < n ==> Gentle(g, ws[k], ms[k], root)
  }

  lemma {:induction false} RunKeeps(g: Game, ws: seq<World>, ms: seq<Move>, root: real -> real, i: nat)
    requires IsRoot(root) && Runs(g, ws, ms, root) && i < |ws| && GentleRun(g, ws, ms, i, root)
    ensures WorldOk(g, ws[i], root)
  {
    hide IsRoot, Possible, Moved, Gentle;
    if i == 0 {
      StartOk(g, root);
    } else {
      hide WorldOk;
      RunKeeps(g, ws, ms, root, i - 1);
      StepKeeps(g, ws[i - 1], ms[i - 1], root);
    }
  }

  lemma StartOk(g: Game, root: real -> real)
    requires IsRoot(root)
    ensures WorldOk(g, World(Fresh(g, 0), Fresh(g, 1), [], [], []), root)
  {
    hide IsRoot, FirstRound;
    BoardStart(g, root);
  }

  lemma BoardStart(g: Game, root: real -> real)
    requires IsRoot(root)
    ensures Board(g, [], root) == Fresh(g, 0) && !FirstRound(g).rolling && FirstRound(g).n == 0
  {
    hide IsRoot;
  }

  /**
    Lockstep: nothing honest is rejected, at most two throws wait, and whenever both phones have settled as many
    throws, boards agree and scores mirror.
   */
  lemma Lockstep(g: Game, ws: seq<World>, ms: seq<Move>, root: real -> real, i: nat, j: nat)
    requires IsRoot(root) && Runs(g, ws, ms, root) && i < |ws| && j < |ws|
    requires GentleRun(g, ws, ms, i, root) && GentleRun(g, ws, ms, j, root)
    ensures ws[i].a.rejected == ws[i].b.rejected == 0 && |ws[i].a.queue| <= 2 && |ws[i].b.queue| <= 2
    ensures !ws[i].a.st.rolling && !ws[j].b.st.rolling && ws[i].a.st.n == ws[j].b.st.n ==>
      SameGame(ws[i].a, ws[j].b)
  {
    hide IsRoot, Runs;
    RunKeeps(g, ws, ms, root, i);
    RunKeeps(g, ws, ms, root, j);
    AtMostTwoWait(g, ws[i].throws, ws[i].a, ws[i].toA);
    AtMostTwoWait(g, ws[i].throws, ws[i].b, ws[i].toB);
    Seats(g, ws, ms, root, i);
    Seats(g, ws, ms, root, j);
    if !ws[i].a.st.rolling && !ws[j].b.st.rolling && ws[i].a.st.n == ws[j].b.st.n {
      var n := ws[i].a.st.n;
      if i <= j { ThrowsStay(g, ws, ms, root, i, j); } else { ThrowsStay(g, ws, ms, root, j, i); }
      hide Board, History, Pending;
      assert ws[i].throws[..n] == ws[j].throws[..n];
    }
  }

  predicate SameGame(a: Phone, b: Phone) {
    a.st == b.st && a.over == b.over && a.mine == b.theirs && a.theirs == b.mine
  }

  lemma {:induction false} Seats(g: Game, ws: seq<World>, ms: seq<Move>, root: real -> real, i: nat)
    requires IsRoot(root) && Runs(g, ws, ms, root) && i < |ws|
    ensures ws[i].a.me == 0 && ws[i].b.me == 1
  {
    hide IsRoot, Runs;
    RunStarts(g, ws, ms, root);
    if i > 0 {
      Seats(g, ws, ms, root, i - 1);
      RunGrows(g, ws, ms, root, i - 1);
    }
  }

  lemma RunStarts(g: Game, ws: seq<World>, ms: seq<Move>, root: real -> real)
    requires IsRoot(root) && Runs(g, ws, ms, root)
    ensures |ws| == |ms| + 1 && ws[0].a.me == 0 && ws[0].b.me == 1
  {
    hide IsRoot, Possible, Moved;
  }

  /** A move keeps the seats and only ever adds throws. */
  lemma MoveGrows(g: Game, w: World, m: Move, root: real -> real)
    requires IsRoot(root) && Possible(w, m)
    ensures var v := Moved(g, w, m, root); v.a.me == w.a.me && v.b.me == w.b.me && w.throws <= v.throws
  {
    hide IsRoot, Local, History, TooFast;
    if m.first { FirstGrows(g, w, m, root); } else { FirstGrows(g, Swapped(w), m, root); }
  }

  lemma FirstGrows(g: Game, w: World, m: Move, root: real -> real)
    requires IsRoot(root) && (m.Arrives? ==> w.toA != [])
    ensures var v := FirstMoves(g, w, m, root); v.a.me == w.a.me && v.b == w.b && w.throws <= v.throws
  {
    hide IsRoot, Launched, OwnThrow, FromX, TooFast, TurnOf;
    if m.Ticks? && !w.a.over {
      WorkOffSeat(g, w.a, root);
      var p := WorkOff(g, w.a, root);
      var t := OwnThrow(g, p, m.input);
      RolledPost(g, if t.None? then p else p.(st := Launched(g, p.st, p.me, t.value, root)), m.k, root);
    }
    hide WorkOff, Rolled;
  }

  lemma {:induction false} WorkOffSeat(g: Game, ph: Phone, root: real -> real)
    ensures WorkOff(g, ph, root).me == ph.me
    decreases |ph.queue|
  {
    hide Launched, TurnOf, Towards;
    if ph.started && !ph.st.rolling && ph.queue != [] { WorkOffSeat(g, Rejected(ph.(queue := ph.queue[1..])), root); }
  }

  lemma {:induction false} RolledPost(g: Game, ph: Phone, k: nat, root: real -> real)
    requires IsRoot(root)
    ensures SamePost(ph, Rolled(g, ph, k, root))
    decreases k
  {
    hide IsRoot, Step;
    if k > 0 && ph.st.rolling {
      var r := Step(RulesOf(g), ph.st.list, root);
      var q := ph.(st := ph.st.(list := r.list));
      if r.moving { RolledPost(g, q, k - 1, root); } else { SettlePost(g, q, root); }
      hide Settle;
    }
  }

  lemma PrefixChain(a: seq<Throw>, b: seq<Throw>, c: seq<Throw>)
    requires a <= b <= c
    ensures a <= c
  {
  }

  lemma RunGrows(g: Game, ws: seq<World>, ms: seq<Move>, root: real -> real, i: nat)
    requires IsRoot(root) && Runs(g, ws, ms, root) && i < |ms| && i + 1 < |ws|
    ensures ws[i].throws <= ws[i + 1].throws && ws[i + 1].a.me == ws[i].a.me && ws[i + 1].b.me == ws[i].b.me
  {
    hide IsRoot, Possible, Moved;
    MoveGrows(g, ws[i], ms[i], root);
  }

  lemma {:induction false} ThrowsStay(g: Game, ws: seq<World>, ms: seq<Move>, root: real -> real, i: nat, j: nat)
    requires IsRoot(root) && Runs(g, ws, ms, root) && i <= j < |ws|
    ensures ws[i].throws <= ws[j].throws
    decreases j
  {
    hide IsRoot, Runs;
    RunStarts(g, ws, ms, root);
    if i < j {
      ThrowsStay(g, ws, ms, root, i, j - 1);
      RunGrows(g, ws, ms, root, j - 1);
      PrefixChain(ws[i].throws, ws[j - 1].throws, ws[j].throws);
    }
  }
}
