/**
  The ball of Puck-Duell, Stangen-Kick and Flipper-Duell on the phone that owns it: one substep of walls and figures.
  The angles of the flippers come in as the ends of their segments, the friction as the factor it leaves of the speed.
 */
module BallPhysics {
  import opened Options
  import opened Discs
  import opened Reals

  /** A ball. When its speed is no number (num is false), vx and vy mean nothing and comparisons with them fail. */
  datatype Ball = Ball(x: real, y: real, vx: real, vy: real, num: bool)
  datatype Game = Puck | Kick | Flipper
  datatype Table = Table(r: real, vmax: real, win: nat, mouth: real, bounce: real)

  const H: real := 1600.0

  function TableOf(g: Game): Table {
    match g
    case Puck => Table(34.0, 2400.0, 5, 400.0, 0.92)
    case Kick => Table(26.0, 2300.0, 3, 320.0, 0.9)
    case Flipper => Table(20.0, 1500.0, 5, 0.0, 1.0)
  }

  function Abs(v: real): real { if v < 0.0 then -v else v }
  function Clamp(v: real, lo: real, hi: real): real { if v < lo then lo else if v > hi then hi else v }

  function Mirror(b: Ball): Ball { Ball(W - b.x, H - b.y, -b.vx, -b.vy, b.num) }

  function SpeedOf(b: Ball, root: real -> real): real { root(Sq(b.vx) + Sq(b.vy)) }

  // ---------- flying ----------

  /** A substep of time d, with f what friction leaves of the speed. */
  function Glided(b: Ball, d: real, f: real): Ball {
    Ball(b.x + Part(b.vx, d), b.y + Part(b.vy, d), Part(b.vx, f), Part(b.vy, f), b.num)
  }

  predicate InMouth(t: Table, x: real) { Abs(x - W / 2.0) < t.mouth / 2.0 - t.r * 0.4 }

  function AtSides(t: Table, b: Ball): Ball {
    var b1 := if b.x < t.r then b.(x := 2.0 * t.r - b.x, vx := Part(Abs(b.vx), t.bounce)) else b;
    if b1.x > W - t.r then b1.(x := 2.0 * (W - t.r) - b1.x, vx := -Part(Abs(b1.vx), t.bounce)) else b1
  }

  /** Outside the goal mouth the end walls throw the ball back. */
  function AtEnds(t: Table, b: Ball): Ball {
    if InMouth(t, b.x) then b
    else
      var b1 := if H - t.r < b.y < H + t.r then b.(y := 2.0 * (H - t.r) - b.y, vy := -Part(Abs(b.vy), t.bounce)) else b;
      if -t.r < b1.y < t.r then b1.(y := 2.0 * t.r - b1.y, vy := Part(Abs(b1.vy), t.bounce)) else b1
  }

  /** The flippers' table is open at both ends. */
  function AtWalls(g: Game, b: Ball): Ball {
    var b1 := AtSides(TableOf(g), b);
    if g.Flipper? then b1 else AtEnds(TableOf(g), b1)
  }

  function Capped(g: Game, b: Ball, root: real -> real): Ball {
    var s, most := SpeedOf(b, root), TableOf(g).vmax;
    if s > most then b.(vx := Shrunk(b.vx, most, s), vy := Shrunk(b.vy, most, s)) else b
  }

  // ---------- hitting ----------

  datatype Hit = Hit(b: Ball, hit: bool)

  /** Off a surface that moves with speed (vx, vy), along the direction n; e is the bounciness. */
  function Deflected(b: Ball, vx: real, vy: real, nx: real, ny: real, e: real): Ball {
    var rv := Along(b.vx - vx, b.vy - vy, nx, ny);
    if rv < 0.0 then b.(vx := b.vx - Part((1.0 + e) * rv, nx), vy := b.vy - Part((1.0 + e) * rv, ny)) else b
  }

  /** Nearer to a point than min: pushed out to that distance, straight up if it lies right on it, and deflected. */
  function PushedOut(b: Ball, qx: real, qy: real, min: real, vx: real, vy: real, e: real, root: real -> real): Hit {
    var dx, dy := b.x - qx, b.y - qy;
    var d := root(Sq(dx) + Sq(dy));
    if d >= min then Hit(b, false)
    else
      var nx, ny := if d > 0.0 then Shrunk(dx, 1.0, d) else 0.0, if d > 0.0 then Shrunk(dy, 1.0, d) else -1.0;
      Hit(Deflected(b.(x := qx + Part(min, nx), y := qy + Part(min, ny)), vx, vy, nx, ny, e), true)
  }

  /** A round figure with its own speed. */
  datatype Fig = Fig(x: real, y: real, vx: real, vy: real)

  function Bounced(b: Ball, c: Fig, min: real, e: real, root: real -> real): Hit {
    PushedOut(b, c.x, c.y, min, c.vx, c.vy, e, root)
  }

  function BouncedAll(b: Ball, cs: seq<Fig>, min: real, e: real, root: real -> real): Hit {
    if cs == [] then Hit(b, false)
    else
      var h := BouncedAll(b, cs[..|cs| - 1], min, e, root);
      var i := Bounced(h.b, cs[|cs| - 1], min, e, root);
      Hit(i.b, h.hit || i.hit)
  }

  // Puck-Duell: one mallet.

  const MR: real := 72.0

  function PuckStruck(b: Ball, m: Fig, root: real -> real): Ball {
    var t := TableOf(Puck);
    var h := Bounced(b, m, t.r + MR, 0.92, root);
    if !h.hit then b
    else
      var q := Capped(Puck, h.b, root);
      var q1 := q.(x := Clamp(q.x, t.r, W - t.r));
      if InMouth(t, q1.x) || q1.y <= H - t.r then q1 else q1.(y := H - t.r)
  }

  // Stangen-Kick: a keeper and a row of three, moved together; a kick throws the ball forward.

  const FR: real := 30.0

  function Rods(c: real, cv: real, kick: real): seq<Fig> {
    var k, up := Clamp(W / 2.0 + Part(c - W / 2.0, 0.6), W / 2.0 - 150.0, W / 2.0 + 150.0), -Part(1500.0, kick);
    [Fig(k, H - 190.0, Part(cv, 0.6), up), Fig(c - 280.0, H - 600.0, cv, up), Fig(c, H - 600.0, cv, up),
      Fig(c + 280.0, H - 600.0, cv, up)]
  }

  function KickStruck(b: Ball, c: real, cv: real, kick: real, root: real -> real): Ball {
    var t := TableOf(Kick);
    var h := BouncedAll(b, Rods(c, cv, kick), t.r + FR, 0.8, root);
    if !h.hit then h.b
    else
      var q := Capped(Kick, if kick > 0.0 && h.b.vy > -1200.0 then h.b.(vy := -1200.0) else h.b, root);
      q.(x := Clamp(q.x, t.r, W - t.r))
  }

  // Flipper-Duell: two flippers, two lanes beside them, three bumpers.

  datatype Seg = Seg(x1: real, y1: real, x2: real, y2: real)

  /** How far along the segment the nearest place lies. */
  function FootOn(b: Ball, s: Seg): (k: real)
    ensures 0.0 <= k <= 1.0
  {
    var vx, vy := s.x2 - s.x1, s.y2 - s.y1;
    var l := Sq(vx) + Sq(vy);
    if l == 0.0 then 0.0 else Clamp(Along(b.x - s.x1, b.y - s.y1, vx, vy) / l, 0.0, 1.0)
  }

  /** The ball against a segment of half width thick that turns with speed w around (px, py). */
  function SegHit(b: Ball, s: Seg, thick: real, w: real, px: real, py: real, e: real, root: real -> real): Hit {
    var k := FootOn(b, s);
    var qx, qy := s.x1 + Part(k, s.x2 - s.x1), s.y1 + Part(k, s.y2 - s.y1);
    PushedOut(b, qx, qy, TableOf(Flipper).r + thick, -Part(w, qy - py), Part(w, qx - px), e, root)
  }

  const BR: real := 38.0
  const VMIN: real := 620.0

  /**
    A bumper gives speed. At speed zero there is nothing to give: the source divides by it, and the speed is no number
    from then on. A ball without one is still pushed out.
   */
  function Bumped(b: Ball, c: Fig, root: real -> real): Hit {
    var h := Bounced(b, c, TableOf(Flipper).r + BR, 1.0, root);
    if !h.hit || !b.num then h
    else
      var s := SpeedOf(h.b, root);
      var q := h.b.(vx := Part(h.b.vx, 1.08), vy := Part(h.b.vy, 1.08));
      if s >= VMIN then Hit(q, true)
      else if s <= 0.0 then Hit(q.(num := false), true)
      else Hit(q.(vx := Shrunk(q.vx, VMIN, s), vy := Shrunk(q.vy, VMIN, s)), true)
  }

  function BumpedAll(b: Ball, cs: seq<Fig>, root: real -> real): Hit {
    if cs == [] then Hit(b, false)
    else
      var h := BumpedAll(b, cs[..|cs| - 1], root);
      var i := Bumped(h.b, cs[|cs| - 1], root);
      Hit(i.b, h.hit || i.hit)
  }

  const LEFT_LANE := Seg(0.0, H - 470.0, 150.0, H - 230.0)
  const RIGHT_LANE := Seg(W, H - 470.0, W - 150.0, H - 230.0)

  function SegsHit(b: Ball, left: Seg, right: Seg, wl: real, wr: real, root: real -> real): Hit {
    var h1 := SegHit(b, left, 13.0, wl, 150.0, H - 230.0, 0.55, root);
    var h2 := SegHit(h1.b, right, 13.0, -wr, W - 150.0, H - 230.0, 0.55, root);
    var h3 := SegHit(h2.b, LEFT_LANE, 6.0, 0.0, 0.0, 0.0, 0.5, root);
    var h4 := SegHit(h3.b, RIGHT_LANE, 6.0, 0.0, 0.0, 0.0, 0.5, root);
    Hit(h4.b, h1.hit || h2.hit || h3.hit || h4.hit)
  }

  function FlipStruck(b: Ball, left: Seg, right: Seg, wl: real, wr: real, bumps: seq<Fig>, root: real -> real): Ball {
    var h := SegsHit(b, left, right, wl, wr, root);
    var i := BumpedAll(h.b, bumps, root);
    var q := i.b;
    if !(h.hit || i.hit) || !q.num then q
    else Capped(Flipper, if Abs(q.vy) < 220.0 then q.(vy := if q.vy < 0.0 then -220.0 else 220.0) else q, root)
  }

  /**
    A ball without a speed has no place either once it has moved. Every distance then counts as a hit: flippers and
    lanes leave it without a place, the first bumper puts it on its top, and the other bumpers may push it on from
    there.
   */
  function Drifted(b: Ball, bumps: seq<Fig>, root: real -> real): Ball
    requires bumps != []
  {
    var top := b.(x := bumps[0].x, y := bumps[0].y - (TableOf(Flipper).r + BR), num := false);
    BumpedAll(top, bumps[1..], root).b
  }

  // ---------- one substep of the owner ----------

  datatype Figures =
    | Mallet(m: Fig)
    | Rod(c: real, cv: real, kick: real)
    | Flippers(left: Seg, right: Seg, wl: real, wr: real, bumps: seq<Fig>)

  /** The figures of a game where they can be. */
  predicate FiguresOk(g: Game, fs: Figures) {
    match g
    case Puck => fs.Mallet? && MR <= fs.m.x <= W - MR && H / 2.0 + MR <= fs.m.y <= H - MR
    case Kick => fs.Rod? && 320.0 <= fs.c <= W - 320.0 && 0.0 <= fs.kick <= 1.0
    case Flipper =>
      && fs.Flippers? && FlipperOk(fs.left) && FlipperOk(fs.right) && |fs.bumps| == 3
      && forall k :: 0 <= k < |fs.bumps| ==> BumperOk(fs.bumps[k])
  }

  predicate FlipperOk(s: Seg) { 0.0 <= s.x1 <= W && 0.0 <= s.x2 <= W && s.y1 == H - 230.0 && s.y2 >= H - 374.0 }

  predicate BumperOk(c: Fig) {
    140.0 <= c.x <= 860.0 && H / 2.0 + 170.0 <= c.y <= H / 2.0 + 430.0 && c.vx == c.vy == 0.0
  }

  predicate StepOk(g: Game, d: real, f: real) {
    0.0 < d <= STEP && 0.0 <= f <= 1.0 && (g.Kick? ==> f == 1.0 - 0.25 * d) && (g.Flipper? ==> f == 1.0)
  }

  function Struck(g: Game, b: Ball, fs: Figures, root: real -> real): Ball
    requires FiguresOk(g, fs)
  {
    match g
    case Puck => PuckStruck(b, fs.m, root)
    case Kick => KickStruck(b, fs.c, fs.cv, fs.kick, root)
    case Flipper => FlipStruck(b, fs.left, fs.right, fs.wl, fs.wr, fs.bumps, root)
  }

  /** Walls and figures. Only at the flippers' bumpers can a ball lose its speed for good. */
  function Substep(g: Game, b: Ball, fs: Figures, d: real, f: real, root: real -> real): Ball
    requires FiguresOk(g, fs)
  {
    if g.Flipper? && !b.num then Drifted(b, fs.bumps, root)
    else Struck(g, AtWalls(g, Glided(b, d, f)), fs, root)
  }

  // ---------- what the owner's ball is always like ----------

  predicate WithinSpeed(g: Game, b: Ball) { Sq(b.vx) + Sq(b.vy) <= Sq(TableOf(g).vmax) }

  predicate OnTable(g: Game, b: Ball) { -100.0 <= b.x <= W + 100.0 && b.y >= H / 2.0 - TableOf(g).r }

  /** A ball without a speed lies in the half of the bumpers that took it. */
  predicate Lost(g: Game, b: Ball) { g.Flipper? && !b.num && H / 2.0 <= b.y <= H }

  /** In the owner's half, or just over the middle but not leaving. */
  predicate InPlay(g: Game, b: Ball) {
    && OnTable(g, b) && b.y <= H + TableOf(g).r
    && if b.num then WithinSpeed(g, b) && (b.y >= H / 2.0 || b.vy >= 0.0) else Lost(g, b)
  }

  lemma SpeedBound(v: real, w: real, most: real)
    requires Sq(v) + Sq(w) <= Sq(most) && most > 0.0
    ensures -most <= v <= most
  {
    Positive(w);
    if v > most { Bigger(most, v); }
    if v < -most {
      Bigger(most, -v);
      NegSquare(v);
    }
    hide Sq;
  }

  /** In one substep a ball moves less than its own radius. */
  lemma ShortWay(g: Game, v: real, d: real)
    requires var most := TableOf(g).vmax; -most <= v <= most
    requires 0.0 < d <= STEP
    ensures -TableOf(g).r <= Part(v, d) <= TableOf(g).r && (v >= 0.0 ==> Part(v, d) >= 0.0)
  {
    var most, y := TableOf(g).vmax, Part(v, d);
    NotNegative(most - v, d, most * d - y);
    NotNegative(most + v, d, most * d + y);
    NotNegative(most, STEP - d, most * STEP - most * d);
    if v >= 0.0 { NotNegative(v, d, y); }
  }

  lemma Weaker(v: real, f: real)
    requires 0.0 <= f <= 1.0
    ensures Sq(Part(v, f)) <= Sq(v) && (v >= 0.0 ==> Part(v, f) >= 0.0)
  {
    Product(v, f);
    Positive(v);
    UnitSquare(f);
    SmallFactor(Sq(v), Sq(f));
    if v >= 0.0 { NotNegative(v, f, Part(v, f)); }
    hide Sq;
  }

  lemma GlidedOk(g: Game, b: Ball, d: real, f: real)
    requires InPlay(g, b) && b.num && StepOk(g, d, f)
    ensures var q := Glided(b, d, f);
      -140.0 <= q.x <= W + 140.0 && q.y >= H / 2.0 - TableOf(g).r && WithinSpeed(g, q) && q.num
  {
    hide Sq, Part;
    SpeedBound(b.vx, b.vy, TableOf(g).vmax);
    SpeedBound(b.vy, b.vx, TableOf(g).vmax);
    ShortWay(g, b.vx, d);
    ShortWay(g, b.vy, d);
    Weaker(b.vx, f);
    Weaker(b.vy, f);
  }

  lemma Bounce(v: real, e: real)
    requires 0.0 <= e <= 1.0
    ensures Sq(Part(Abs(v), e)) <= Sq(v) && Sq(-Part(Abs(v), e)) <= Sq(v)
  {
    NegSquare(v);
    Weaker(Abs(v), e);
    NegSquare(Part(Abs(v), e));
    hide Sq, Part;
  }

  lemma WallsOk(g: Game, b: Ball)
    requires -140.0 <= b.x <= W + 140.0 && b.y >= H / 2.0 - TableOf(g).r && WithinSpeed(g, b)
    ensures OnTable(g, AtWalls(g, b)) && WithinSpeed(g, AtWalls(g, b))
    ensures TableOf(g).r <= AtWalls(g, b).x <= W - TableOf(g).r && AtWalls(g, b).num == b.num
  {
    hide Sq, InMouth, Part;
    var e := TableOf(g).bounce;
    Bounce(b.vx, e);
    Bounce(Part(Abs(b.vx), e), e);
    Bounce(b.vy, e);
  }

  lemma FlownOn(g: Game, b: Ball, d: real, f: real)
    ensures AtWalls(g, Glided(b, d, f)).num == b.num
  {
    hide Part, InMouth;
  }

  lemma CappedOk(g: Game, b: Ball, root: real -> real)
    requires IsRoot(root)
    ensures var q := Capped(g, b, root); WithinSpeed(g, q) && q.x == b.x && q.y == b.y && q.num == b.num
  {
    Positive(b.vx);
    Positive(b.vy);
    var s, most := SpeedOf(b, root), TableOf(g).vmax;
    assert s >= 0.0 && Sq(s) == Sq(b.vx) + Sq(b.vy);
    if s > most {
      Scaled(b.vx, b.vy, s, most);
    } else if s < most {
      Bigger(s, most);
    }
    hide Sq, Shrunk, IsRoot;
  }

  // ---------- how far a hit can push the ball ----------

  /** A unit direction has no component above one. */
  lemma UnitPart(dx: real, dy: real, d: real)
    requires d > 0.0 && Sq(d) == Sq(dx) + Sq(dy)
    ensures -1.0 <= Shrunk(dx, 1.0, d) <= 1.0 && -1.0 <= Shrunk(dy, 1.0, d) <= 1.0
  {
    Scaled(dx, dy, d, 1.0);
    hide Sq, Shrunk;
    SpeedBound(Shrunk(dx, 1.0, d), Shrunk(dy, 1.0, d), 1.0);
    SpeedBound(Shrunk(dy, 1.0, d), Shrunk(dx, 1.0, d), 1.0);
  }

  lemma Reach(min: real, n: real)
    requires min >= 0.0 && -1.0 <= n <= 1.0
    ensures -min <= Part(min, n) <= min
  {
    NotNegative(min, 1.0 + n, min + Part(min, n));
    NotNegative(min, 1.0 - n, min - Part(min, n));
  }

  lemma DeflectedStays(b: Ball, vx: real, vy: real, nx: real, ny: real, e: real)
    ensures var q := Deflected(b, vx, vy, nx, ny, e); q.x == b.x && q.y == b.y && q.num == b.num
  {
    hide Along, Part;
  }

  lemma PushedNear(b: Ball, qx: real, qy: real, min: real, vx: real, vy: real, e: real, root: real -> real)
    requires IsRoot(root) && min >= 0.0
    ensures var h := PushedOut(b, qx, qy, min, vx, vy, e, root);
      && h.b.num == b.num
      && if h.hit then qx - min <= h.b.x <= qx + min && qy - min <= h.b.y <= qy + min else h.b == b
  {
    var dx, dy := b.x - qx, b.y - qy;
    Positive(dx);
    Positive(dy);
    var d := root(Sq(dx) + Sq(dy));
    assert d >= 0.0 && Sq(d) == Sq(dx) + Sq(dy);
    hide IsRoot, Sq, Shrunk, Part, Deflected;
    if d > 0.0 { UnitPart(dx, dy, d); }
    var nx, ny := if d > 0.0 then Shrunk(dx, 1.0, d) else 0.0, if d > 0.0 then Shrunk(dy, 1.0, d) else -1.0;
    Reach(min, nx);
    Reach(min, ny);
    DeflectedStays(b.(x := qx + Part(min, nx), y := qy + Part(min, ny)), vx, vy, nx, ny, e);
  }

  lemma {:induction false} BouncedAllNear(b: Ball, cs: seq<Fig>, min: real, e: real, lo: real, root: real -> real)
    requires IsRoot(root) && min >= 0.0 && b.y >= lo && forall k :: 0 <= k < |cs| ==> cs[k].y - min >= lo
    ensures var h := BouncedAll(b, cs, min, e, root); h.b.y >= lo && h.b.num == b.num && (!h.hit ==> h.b == b)
    decreases |cs|
  {
    hide IsRoot, PushedOut;
    if cs != [] {
      var c := cs[|cs| - 1];
      BouncedAllNear(b, cs[..|cs| - 1], min, e, lo, root);
      var h := BouncedAll(b, cs[..|cs| - 1], min, e, root);
      PushedNear(h.b, c.x, c.y, min, c.vx, c.vy, e, root);
    }
  }

  /** The place on a segment lies between its ends. */
  lemma OnSegment(k: real, a: real, b: real, lo: real, hi: real)
    requires 0.0 <= k <= 1.0 && lo <= a <= hi && lo <= b <= hi
    ensures lo <= a + Part(k, b - a) <= hi
  {
    if a <= b {
      NotNegative(k, b - a, Part(k, b - a));
      NotNegative(1.0 - k, b - a, b - a - Part(k, b - a));
    } else {
      NotNegative(k, a - b, -Part(k, b - a));
      NotNegative(1.0 - k, a - b, a - b + Part(k, b - a));
    }
  }

  predicate SegOk(s: Seg) { 0.0 <= s.x1 <= W && 0.0 <= s.x2 <= W && s.y1 >= H - 470.0 && s.y2 >= H - 470.0 }

  lemma SegNear(b: Ball, s: Seg, thick: real, w: real, px: real, py: real, e: real, root: real -> real)
    requires IsRoot(root) && SegOk(s) && 0.0 <= thick <= 13.0
    ensures var h := SegHit(b, s, thick, w, px, py, e, root);
      && h.b.num == b.num
      && if h.hit then -100.0 <= h.b.x <= W + 100.0 && h.b.y >= H / 2.0 else h.b == b
  {
    var k := FootOn(b, s);
    hide IsRoot, Part, PushedOut, FootOn;
    var most := if s.y1 < s.y2 then s.y2 else s.y1;
    OnSegment(k, s.x1, s.x2, 0.0, W);
    OnSegment(k, s.y1, s.y2, H - 470.0, most);
    var qx, qy := s.x1 + Part(k, s.x2 - s.x1), s.y1 + Part(k, s.y2 - s.y1);
    PushedNear(b, qx, qy, TableOf(Flipper).r + thick, -Part(w, qy - py), Part(w, qx - px), e, root);
  }

  lemma SegsNear(b: Ball, left: Seg, right: Seg, wl: real, wr: real, root: real -> real)
    requires IsRoot(root) && FlipperOk(left) && FlipperOk(right) && OnTable(Flipper, b)
    ensures var h := SegsHit(b, left, right, wl, wr, root);
      OnTable(Flipper, h.b) && h.b.num == b.num && (!h.hit ==> h.b == b)
  {
    hide IsRoot, SegHit;
    var h1 := SegHit(b, left, 13.0, wl, 150.0, H - 230.0, 0.55, root);
    var h2 := SegHit(h1.b, right, 13.0, -wr, W - 150.0, H - 230.0, 0.55, root);
    var h3 := SegHit(h2.b, LEFT_LANE, 6.0, 0.0, 0.0, 0.0, 0.5, root);
    SegNear(b, left, 13.0, wl, 150.0, H - 230.0, 0.55, root);
    SegNear(h1.b, right, 13.0, -wr, W - 150.0, H - 230.0, 0.55, root);
    SegNear(h2.b, LEFT_LANE, 6.0, 0.0, 0.0, 0.0, 0.5, root);
    SegNear(h3.b, RIGHT_LANE, 6.0, 0.0, 0.0, 0.0, 0.5, root);
  }

  predicate AtBumpers(b: Ball) { OnTable(Flipper, b) && H / 2.0 <= b.y <= H }

  lemma BumpedNear(b: Ball, c: Fig, root: real -> real)
    requires IsRoot(root) && BumperOk(c) && OnTable(Flipper, b)
    ensures var h := Bumped(b, c, root);
      && (if h.hit then AtBumpers(h.b) else h.b == b)
      && (!b.num ==> !h.b.num)
  {
    hide IsRoot, PushedOut, Part, Shrunk, SpeedOf;
    PushedNear(b, c.x, c.y, TableOf(Flipper).r + BR, c.vx, c.vy, 1.0, root);
  }

  /** Whatever the bumpers do, the ball stays on the table; where it loses its speed, it lies at one of them. */
  lemma {:induction false} BumpedAllNear(b: Ball, cs: seq<Fig>, root: real -> real)
    requires IsRoot(root) && OnTable(Flipper, b) && forall k :: 0 <= k < |cs| ==> BumperOk(cs[k])
    ensures var h := BumpedAll(b, cs, root);
      && OnTable(Flipper, h.b) && (!h.hit ==> h.b == b)
      && (AtBumpers(b) || (b.num && !h.b.num) ==> AtBumpers(h.b)) && (!b.num ==> !h.b.num)
    decreases |cs|
  {
    hide IsRoot, Bumped, OnTable, BumperOk;
    if cs != [] {
      BumpedAllNear(b, cs[..|cs| - 1], root);
      BumpedNear(BumpedAll(b, cs[..|cs| - 1], root).b, cs[|cs| - 1], root);
    }
  }

  /** A bumper takes the speed away exactly when hit at speed zero; a ball at rest on its middle is one such hit. */
  lemma RestIsLost(b: Ball, c: Fig, root: real -> real)
    requires IsRoot(root) && BumperOk(c) && b.num
    ensures !Bumped(b, c, root).b.num <==>
      var h := Bounced(b, c, TableOf(Flipper).r + BR, 1.0, root); h.hit && h.b.vx == h.b.vy == 0.0
    ensures b == Ball(c.x, c.y, 0.0, 0.0, true) ==> !Bumped(b, c, root).b.num
  {
    RootOfZero(root);
    var h := Bounced(b, c, TableOf(Flipper).r + BR, 1.0, root);
    Positive(h.b.vx);
    Positive(h.b.vy);
    Positive(SpeedOf(h.b, root));
    hide Shrunk;
  }

  lemma RootOfZero(root: real -> real)
    requires IsRoot(root)
    ensures root(0.0) == 0.0
  {
    Positive(root(0.0));
  }

  // ---------- the three games ----------

  /** On the table and slow enough, or without a speed at the bumpers. */
  predicate Fine(g: Game, b: Ball) { OnTable(g, b) && if b.num then WithinSpeed(g, b) else Lost(g, b) }

  lemma PuckOk(b: Ball, m: Fig, root: real -> real)
    requires IsRoot(root) && FiguresOk(Puck, Mallet(m)) && Fine(Puck, b)
    ensures Fine(Puck, PuckStruck(b, m, root))
  {
    hide IsRoot, Sq, PushedOut, Capped, InMouth;
    var h := Bounced(b, m, TableOf(Puck).r + MR, 0.92, root);
    PushedNear(b, m.x, m.y, TableOf(Puck).r + MR, m.vx, m.vy, 0.92, root);
    CappedOk(Puck, h.b, root);
  }

  lemma KickOk(b: Ball, c: real, cv: real, kick: real, root: real -> real)
    requires IsRoot(root) && Fine(Kick, b)
    ensures Fine(Kick, KickStruck(b, c, cv, kick, root))
  {
    hide IsRoot, Sq, PushedOut, Capped, BouncedAll, Part;
    var h := BouncedAll(b, Rods(c, cv, kick), TableOf(Kick).r + FR, 0.8, root);
    BouncedAllNear(b, Rods(c, cv, kick), TableOf(Kick).r + FR, 0.8, H / 2.0 - TableOf(Kick).r, root);
    CappedOk(Kick, if kick > 0.0 && h.b.vy > -1200.0 then h.b.(vy := -1200.0) else h.b, root);
  }

  lemma FlipOk(b: Ball, fs: Figures, root: real -> real)
    requires IsRoot(root) && FiguresOk(Flipper, fs) && Fine(Flipper, b) && b.num
    ensures Fine(Flipper, FlipStruck(b, fs.left, fs.right, fs.wl, fs.wr, fs.bumps, root))
  {
    hide IsRoot, Sq, SegsHit, BumpedAll, Capped;
    var h := SegsHit(b, fs.left, fs.right, fs.wl, fs.wr, root);
    SegsNear(b, fs.left, fs.right, fs.wl, fs.wr, root);
    BumpedAllNear(h.b, fs.bumps, root);
    var q := BumpedAll(h.b, fs.bumps, root).b;
    CappedOk(Flipper, if Abs(q.vy) < 220.0 then q.(vy := if q.vy < 0.0 then -220.0 else 220.0) else q, root);
  }

  /** A ball without a speed keeps lying at the bumpers, and never gets one again. */
  lemma DriftedOk(b: Ball, bumps: seq<Fig>, root: real -> real)
    requires IsRoot(root) && bumps != [] && forall k :: 0 <= k < |bumps| ==> BumperOk(bumps[k])
    ensures var q := Drifted(b, bumps, root); OnTable(Flipper, q) && Lost(Flipper, q)
  {
    hide IsRoot, BumpedAll;
    assert BumperOk(bumps[0]);
    BumpedAllNear(b.(x := bumps[0].x, y := bumps[0].y - (TableOf(Flipper).r + BR), num := false), bumps[1..], root);
  }

  /** After any substep the ball is on the table, slow enough, and no further over the middle than its own radius. */
  lemma SubstepOk(g: Game, b: Ball, fs: Figures, d: real, f: real, root: real -> real)
    requires IsRoot(root) && FiguresOk(g, fs) && InPlay(g, b) && StepOk(g, d, f)
    ensures Fine(g, Substep(g, b, fs, d, f, root))
    ensures !b.num ==> !Substep(g, b, fs, d, f, root).num
  {
    hide IsRoot, WithinSpeed, Glided, AtWalls, PuckStruck, KickStruck, FlipStruck, Drifted, OnTable, StepOk;
    if !b.num {
      DriftedOk(b, fs.bumps, root);
    } else {
      GlidedOk(g, b, d, f);
      WallsOk(g, Glided(b, d, f));
      var q := AtWalls(g, Glided(b, d, f));
      match g
      case Puck => PuckOk(q, fs.m, root);
      case Kick => KickOk(q, fs.c, fs.cv, fs.kick, root);
      case Flipper => FlipOk(q, fs, root);
    }
  }

  // ---------- what the other phone believes ----------

  predicate Plausible(g: Game, b: Ball, root: real -> real) {
    b.num && Abs(b.x) < 5.0 * W && Abs(b.y) < 5.0 * H && SpeedOf(b, root) <= TableOf(g).vmax * 1.01
  }

  predicate PlausiblePass(g: Game, b: Ball, root: real -> real) {
    Plausible(g, b, root) && Abs(b.y - H / 2.0) <= 90.0 && b.vy > 0.0
  }

  /** A position report; a stroke must also be near where the other figures are believed to be. */
  predicate PlausibleReport(g: Game, b: Ball, near: bool, root: real -> real) {
    Plausible(g, b, root) && b.y <= H / 2.0 + TableOf(g).r && near
  }

  lemma OnlyWithSpeed(g: Game, b: Ball, near: bool, root: real -> real)
    ensures PlausibleReport(g, b, near, root) ==> b.num
  {
    hide SpeedOf;
  }

  lemma SlowEnough(g: Game, b: Ball, root: real -> real)
    requires IsRoot(root) && WithinSpeed(g, b)
    ensures SpeedOf(b, root) <= TableOf(g).vmax * 1.01
  {
    Positive(b.vx);
    Positive(b.vy);
    var s := SpeedOf(b, root);
    if s > TableOf(g).vmax { Bigger(TableOf(g).vmax, s); }
    hide Sq;
  }

  lemma MirrorSpeed(g: Game, b: Ball)
    requires WithinSpeed(g, b)
    ensures WithinSpeed(g, Mirror(b))
  {
    NegSquare(b.vx);
    NegSquare(b.vy);
    hide Sq;
  }

  /** Every honest pass is believed, and starts the other phone with a ball in play. */
  lemma PassIsPlausible(g: Game, b: Ball, root: real -> real)
    requires IsRoot(root) && Fine(g, b) && b.num && b.y < H / 2.0 && b.vy < 0.0
    ensures PlausiblePass(g, Mirror(b), root) && InPlay(g, Mirror(b))
  {
    hide Sq, SpeedOf, IsRoot;
    MirrorSpeed(g, b);
    SlowEnough(g, Mirror(b), root);
  }

  /** A position report of the owner is believed exactly when the ball has a speed. */
  lemma ReportIsPlausible(g: Game, b: Ball, root: real -> real)
    requires IsRoot(root) && InPlay(g, b)
    ensures PlausibleReport(g, Mirror(b), true, root) <==> b.num
  {
    hide Sq, SpeedOf, IsRoot;
    if b.num {
      MirrorSpeed(g, b);
      SlowEnough(g, Mirror(b), root);
    }
  }
}
