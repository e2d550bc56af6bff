/** Eis-Stock and Murmel-Ring on one phone: both phones play every throw in the same frame. */
module TurnGames {
  import opened Options
  import opened Discs
  import opened Reals

  const H: real := 1600.0

  datatype Game = Stock | Murmel(marbles: seq<Disc>)
  datatype Throw = Throw(x: real, vx: real, vy: real)
  /** What both phones keep of the round. */
  datatype Shared = Shared(list: seq<Disc>, n: nat, turn: int, rolling: bool, round: nat, thrown: nat, first: int,
      base: nat, r: real, shooterOf: int)

  /** One phone: itself 0 (the inviter) or 1, its score first. */
  datatype Phone = Phone(me: int, started: bool, over: bool, st: Shared, mine: nat, theirs: nat,
      queue: seq<Throw>, rejected: nat)

  datatype Message = Message(n: nat, t: Throw)

  // ---------- the two games ----------

  function RulesOf(g: Game): Rules { if g.Stock? then STOCK else MURMEL }
  function VMax(g: Game): real { if g.Stock? then 1250.0 else 1500.0 }
  const VMIN: real := 150.0
  function WinAt(g: Game): nat { if g.Stock? then 3 else 5 }

  function Clamped(v: real, lo: real, hi: real): real { if v < lo then lo else if v > hi then hi else v }

  function Rounded(v: real): real { (v + 0.5).Floor as real }

  /** A throw starts from the middle, or near it on a whole position. */
  function FromX(g: Game, x: real): real {
    if g.Stock? then W / 2.0 else Rounded(Clamped(x, W / 2.0 - 260.0, W / 2.0 + 260.0))
  }

  function StockRound(st: Shared, round: nat): Shared {
    st.(list := [], round := round, thrown := 0, first := round % 2, turn := round % 2, base := st.n)
  }

  function FirstRound(g: Game): Shared {
    var st := Shared([], 0, 0, false, 0, 0, 0, 0, 360.0, 0);
    if g.Stock? then StockRound(st, 0) else st.(list := g.marbles)
  }

  function TurnOf(g: Game, st: Shared, n: int): int { if g.Stock? then (st.first + (n - st.base)) % 2 else n % 2 }

  function RingAt(n: nat): real {
    var r := 360 - n / 2 * 14;
    if r < 250 then 250.0 else r as real
  }

  function Stone(g: Game, st: Shared, p: int, x: real, vx: real, vy: real): Disc {
    if g.Stock? then Disc(x, if p == 0 then H - 150.0 else 150.0, vx, vy, 44.0, 0.0, p, false, 0)
    else Disc(x, if p == 0 then H / 2.0 + st.r + 80.0 else H / 2.0 - st.r - 80.0, vx, vy, 30.0, 0.0, p, true, 0)
  }

  /** A throw is cut to the fastest there is, put on the board and starts rolling. */
  function Launched(g: Game, st: Shared, p: int, t: Throw, root: real -> real): Shared {
    var v := root(Sq(t.vx) + Sq(t.vy));
    var fast := v > VMax(g);
    var vx, vy := if fast then Shrunk(t.vx, VMax(g), v) else t.vx, if fast then Shrunk(t.vy, VMax(g), v) else t.vy;
    st.(list := st.list + [Stone(g, st, p, t.x, vx, vy)], n := st.n + 1, rolling := true,
        thrown := if g.Stock? then st.thrown + 1 else st.thrown, shooterOf := if g.Stock? then st.shooterOf else p)
  }

  // ---------- when everything lies still ----------

  function OnField(ds: seq<Disc>): seq<Disc> {
    if ds == [] then []
    else OnField(ds[..|ds| - 1]) + (var s := ds[|ds| - 1]; if -s.r < s.y < H + s.r then [s] else [])
  }

  function FromMiddle(s: Disc, root: real -> real): real { root(Sq(s.x - W / 2.0) + Sq(s.y - H / 2.0)) }

  /** The stone nearest to the middle, the earlier of equals, if any is within 300. */
  function Nearest(ds: seq<Disc>, root: real -> real): (k: int)
    ensures -1 <= k < |ds|
    ensures k < 0 ==> forall i :: 0 <= i < |ds| ==> FromMiddle(ds[i], root) >= 300.0
    ensures k >= 0 ==> FromMiddle(ds[k], root) < 300.0
    ensures k >= 0 ==> forall i :: 0 <= i < |ds| ==> FromMiddle(ds[k], root) <= FromMiddle(ds[i], root)
    ensures k >= 0 ==> forall i :: 0 <= i < k ==> FromMiddle(ds[k], root) < FromMiddle(ds[i], root)
  {
    if ds == [] then -1
    else
      var m := |ds| - 1;
      var k := Nearest(ds[..m], root);
      if FromMiddle(ds[m], root) < 300.0 && (k < 0 || FromMiddle(ds[m], root) < FromMiddle(ds[k], root)) then m else k
  }

  predicate Keeps(st: Shared, s: Disc) { Sq(s.x - W / 2.0) + Sq(s.y - H / 2.0) <= Sq(st.r) }

  function InRing(st: Shared, ds: seq<Disc>): seq<Disc> {
    if ds == [] then []
    else InRing(st, ds[..|ds| - 1]) + (var s := ds[|ds| - 1]; if !s.shooter && Keeps(st, s) then [s] else [])
  }

  function KnockedOut(st: Shared, ds: seq<Disc>): nat {
    if ds == [] then 0
    else KnockedOut(st, ds[..|ds| - 1]) + (var s := ds[|ds| - 1]; if !s.shooter && !Keeps(st, s) then 1 else 0)
  }

  /** A point for player p: this phone counts itself first; reaching the goal ends the match. */
  function Point(g: Game, ph: Phone, p: int, k: nat): Phone {
    var q := if p == ph.me then ph.(mine := ph.mine + k) else ph.(theirs := ph.theirs + k);
    if q.mine >= WinAt(g) || q.theirs >= WinAt(g) then q.(over := true) else q
  }

  function SettleStock(ph: Phone, root: real -> real): Phone {
    var list := OnField(ph.st.list);
    var st := ph.st.(list := list);
    if st.thrown < 6 then ph.(st := st.(turn := TurnOf(Stock, st, st.n)))
    else
      var q := RoundWon(ph.(st := st), list, root);
      if q.over then q else q.(st := StockRound(q.st, st.round + 1))
  }

  /** The round goes to the owner of the nearest stone. */
  function RoundWon(ph: Phone, list: seq<Disc>, root: real -> real): Phone {
    var k := Nearest(list, root);
    if k >= 0 then Point(Stock, ph, list[k].p, 1) else ph
  }

  function SettleMurmel(g: Game, ph: Phone): Phone {
    var out, keep := KnockedOut(ph.st, ph.st.list), InRing(ph.st, ph.st.list);
    var q := if out > 0 then Point(g, ph, ph.st.shooterOf, out) else ph;
    q.(st := q.st.(list := keep, r := RingAt(ph.st.n), turn := ph.st.n % 2), over := q.over || keep == [])
  }

  function Settle(g: Game, ph: Phone, root: real -> real): Phone {
    var q := ph.(st := ph.st.(rolling := false));
    if g.Stock? then SettleStock(q, root) else SettleMurmel(g, q)
  }

  lemma StillAfter(g: Game, ph: Phone, root: real -> real)
    ensures !Settle(g, ph, root).st.rolling
  {
    hide OnField, KnockedOut, InRing, RingAt, TurnOf;
  }

  /** The parts of a phone that settling leaves alone. */
  predicate SamePost(ph: Phone, q: Phone) {
    q.me == ph.me && q.started == ph.started && q.queue == ph.queue && q.rejected == ph.rejected && q.st.n == ph.st.n
  }

  lemma SettlePost(g: Game, ph: Phone, root: real -> real)
    ensures SamePost(ph, Settle(g, ph, root))
  {
    hide OnField, KnockedOut, InRing, RingAt, TurnOf;
  }

  // ---------- one phone ----------

  function Fresh(g: Game, me: int): Phone { Phone(me, false, false, FirstRound(g), 0, 0, [], 0) }

  /** Towards the other side, as the receiver sees it. */
  predicate Towards(who: int, t: Throw) { if who == 0 then t.vy <= 0.0 else t.vy >= 0.0 }

  predicate TooFast(g: Game, t: Throw, root: real -> real) { root(Sq(t.vx) + Sq(t.vy)) > VMax(g) * 1.001 }

  function Rejected(ph: Phone): Phone { ph.(rejected := ph.rejected + 1) }

  function Receive(g: Game, ph: Phone, m: Message, root: real -> real): Phone {
    if ph.over then ph
    else if m.n != ph.st.n + |ph.queue| || m.t.x != FromX(g, m.t.x) || TooFast(g, m.t, root) then Rejected(ph)
    else if !ph.st.rolling && ph.queue == []
      && (TurnOf(g, ph.st, ph.st.n) == ph.me || !Towards(TurnOf(g, ph.st, ph.st.n), m.t)) then Rejected(ph)
    else if (ph.st.rolling || ph.queue != []) && |ph.queue| >= 2 then Rejected(ph)
    else ph.(queue := ph.queue + [m.t])
  }

  /** Waiting throws, until one rolls. */
  function WorkOff(g: Game, ph: Phone, root: real -> real): Phone
    decreases |ph.queue|
  {
    if !ph.started || ph.st.rolling || ph.queue == [] then ph
    else
      var q, who := ph.queue[0], TurnOf(g, ph.st, ph.st.n);
      var rest := ph.(queue := ph.queue[1..]);
      if who == ph.me || !Towards(who, q) then WorkOff(g, Rejected(rest), root)
      else rest.(st := Launched(g, rest.st, who, q, root))
  }

  predicate MineTurn(ph: Phone) { ph.started && !ph.over && !ph.st.rolling && ph.st.turn == ph.me && ph.queue == [] }

  /** Is this finger movement a throw towards the other side? */
  predicate Counts(me: int, t: Throw) { if me == 0 then t.vy < -VMIN else t.vy > VMIN }

  /** What goes out: from the line, otherwise just as thrown. */
  function OwnThrow(g: Game, ph: Phone, input: Option<Throw>): Option<Throw> {
    if MineTurn(ph) && input.Some? && Counts(ph.me, input.value) then Some(input.value.(x := FromX(g, input.value.x)))
      else None
  }

  /** Up to k steps of the discs; when nothing moves any more the throw is settled. */
  function Rolled(g: Game, ph: Phone, k: nat, root: real -> real): Phone
    requires IsRoot(root)
    decreases k
  {
    if k == 0 || !ph.st.rolling then ph
    else
      var r := Step(RulesOf(g), ph.st.list, root);
      var q := ph.(st := ph.st.(list := r.list));
      if r.moving then Rolled(g, q, k - 1, root) else Settle(g, q, root)
  }

  datatype Ticked = Ticked(ph: Phone, sent: Option<Message>)

  /** One tick: waiting throws, then an own one (thrown by hand or, too late, by itself), then k steps. */
  function Tick(g: Game, ph: Phone, input: Option<Throw>, k: nat, root: real -> real): Ticked
    requires IsRoot(root)
  {
    if ph.over then Ticked(ph, None)
    else
      var p1 := WorkOff(g, ph, root);
      var t := OwnThrow(g, p1, input);
      if t.None? then Ticked(Rolled(g, p1, k, root), None)
      else Ticked(Rolled(g, p1.(st := Launched(g, p1.st, p1.me, t.value, root)), k, root),
        Some(Message(p1.st.n, t.value)))
  }

  /** The line a throw starts from is a fixed point, so what an honest phone sends passes the receiver's look at it. */
  lemma FromTheLine(g: Game, x: real)
    ensures FromX(g, FromX(g, x)) == FromX(g, x)
  {
    if g.Murmel? {
      var c := Clamped(x, W / 2.0 - 260.0, W / 2.0 + 260.0);
      assert 240.0 <= c <= 760.0;
      var r := (c + 0.5).Floor;
      assert 240 <= r <= 760;
      assert Clamped(r as real, W / 2.0 - 260.0, W / 2.0 + 260.0) == r as real;
      assert (r as real + 0.5).Floor == r;
    }
  }
}
