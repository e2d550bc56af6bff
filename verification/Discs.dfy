/** The sliding discs of Eis-Stock and Murmel-Ring: one fixed time step, in place, and why every throw comes to rest. */
module Discs {
  import opened Reals

  datatype Disc = Disc(x: real, y: real, vx: real, vy: real, r: real, hit: real, p: int, shooter: bool, colour: int)

  datatype Rules = Rules(decel: real, stop: real, bounce: real, side: bool)

  const STEP: real := 1.0 / 120.0
  const W: real := 1000.0
  const STOCK := Rules(230.0, 6.0, 0.85, true)
  const MURMEL := Rules(160.0, 5.0, 0.95, false)

  predicate Physical(D: Rules) { D.decel > 0.0 && D.stop >= 0.0 && 0.0 <= D.bounce <= 1.0 }

  lemma KnownRules()
    ensures Physical(STOCK) && Physical(MURMEL)
  {
  }

  function Square(d: Disc): real { Sq(d.vx) + Sq(d.vy) }

  // ---------- one disc ----------

  function Speed(d: Disc, root: real -> real): real { root(Square(d)) }

  predicate Rolls(D: Rules, d: Disc, root: real -> real) {
    Speed(d, root) > 0.0 && Speed(d, root) - Drag(D) > D.stop
  }

  function Slowed(D: Rules, d: Disc, root: real -> real): Disc {
    var v := Speed(d, root);
    if v > 0.0 then
      var nv := v - Drag(D);
      if nv <= D.stop then d.(vx := 0.0, vy := 0.0) else d.(vx := Shrunk(d.vx, nv, v), vy := Shrunk(d.vy, nv, v))
    else d
  }

  function Bounced(D: Rules, d: Disc): Disc {
    if !D.side then d
    else
      var d1 := if d.x < d.r then d.(x := d.r, vx := -d.vx * 0.5) else d;
      if d1.x > W - d1.r then d1.(x := W - d1.r, vx := -d1.vx * 0.5) else d1
  }

  function Slid(D: Rules, d: Disc, root: real -> real): Disc {
    var s := Slowed(D, d, root);
    Bounced(D, s.(x := s.x + s.vx * STEP, y := s.y + s.vy * STEP))
  }

  /** What friction takes off a speed in one step. */
  function Drag(D: Rules): real { D.decel * STEP }

  /** The least a moving disc loses in one step, of its squared speed. */
  function Loss(D: Rules): real { Drag(D) * (2.0 * D.stop + Drag(D)) }

  lemma SquareNotNegative(d: Disc)
    ensures Square(d) >= 0.0
    ensures Square(d) == 0.0 ==> d.vx == 0.0 && d.vy == 0.0
  {
    Positive(d.vx);
    Positive(d.vy);
    hide Sq;
  }

  lemma LossOf(v: real, k: real, stop: real)
    requires k > 0.0 && stop >= 0.0 && v - k > stop
    ensures Sq(v - k) <= Sq(v) - k * (2.0 * stop + k)
  {
    assert v * v - (v - k) * (v - k) == k * (2.0 * (v - k) + k);
    assert k * (2.0 * (v - k) + k) >= k * (2.0 * stop + k);
  }

  lemma SlowedLoses(D: Rules, d: Disc, root: real -> real)
    requires Physical(D) && IsRoot(root)
    ensures Rolls(D, d, root) ==> Square(Slowed(D, d, root)) <= Square(d) - Loss(D)
    ensures !Rolls(D, d, root) ==> Square(Slowed(D, d, root)) == 0.0 <= Square(d)
  {
    SquareNotNegative(d);
    var v, k := Speed(d, root), Drag(D);
    assert k > 0.0;
    assert v >= 0.0 && Sq(v) == Square(d);
    Positive(v);
    Positive(0.0);
    hide IsRoot, Speed, Drag, Sq, Shrunk;
    if Rolls(D, d, root) {
      Scaled(d.vx, d.vy, v, v - k);
      LossOf(v, k, D.stop);
    }
  }

  lemma Half(x: real)
    ensures 0.0 <= Sq(-x * 0.5) <= Sq(x)
  {
    assert (-x * 0.5) * (-x * 0.5) == x * x * 0.25;
    assert x * x >= 0.0;
  }

  lemma BouncedLoses(D: Rules, d: Disc)
    ensures Square(Bounced(D, d)) <= Square(d)
  {
    Half(d.vx);
    Half(-d.vx * 0.5);
    hide Sq;
  }

  lemma SlidLoses(D: Rules, d: Disc, root: real -> real)
    requires Physical(D) && IsRoot(root)
    ensures Rolls(D, d, root) ==> Square(Slid(D, d, root)) <= Square(d) - Loss(D)
    ensures Square(Slid(D, d, root)) <= Square(d)
    ensures !Rolls(D, d, root) ==> Square(Slid(D, d, root)) == 0.0
    ensures Loss(D) > 0.0
  {
    LossPositive(D);
    hide Loss, Rolls, Slowed, Bounced, Drag, IsRoot, Sq;
    SlowedLoses(D, d, root);
    var s := Slowed(D, d, root);
    var m := s.(x := s.x + s.vx * STEP, y := s.y + s.vy * STEP);
    BouncedLoses(D, m);
    SquareNotNegative(Slid(D, d, root));
    assert Square(m) == Square(s);
  }

  lemma LossPositive(D: Rules)
    requires Physical(D)
    ensures Loss(D) > 0.0
  {
    var k := Drag(D);
    assert k > 0.0;
    hide Drag;
    Multiplied(k, 2.0 * D.stop + k);
  }

  // ---------- two discs ----------

  predicate Touch(a: Disc, b: Disc) {
    var dx, dy, min := b.x - a.x, b.y - a.y, a.r + b.r;
    Sq(dx) + Sq(dy) < Sq(min) && Sq(dx) + Sq(dy) != 0.0
  }

  datatype Met = Met(a: Disc, b: Disc, hit: bool)

  function Meet(D: Rules, a: Disc, b: Disc, root: real -> real): Met
    requires IsRoot(root)
  {
    var dx, dy, min := b.x - a.x, b.y - a.y, a.r + b.r;
    if !Touch(a, b) then Met(a, b, false)
    else
      var d := root(Sq(dx) + Sq(dy));
      RootPositive(dx, dy, root);
      var nx, ny, push := Shrunk(dx, 1.0, d), Shrunk(dy, 1.0, d), (min - d) / 2.0;
      var a1 := a.(x := a.x - Part(push, nx), y := a.y - Part(push, ny));
      var b1 := b.(x := b.x + Part(push, nx), y := b.y + Part(push, ny));
      Kick(D, a1, b1, nx, ny)
  }

  function Impulse(D: Rules, rv: real): real { -(1.0 + D.bounce) * rv / 2.0 }

  function Pushed(d: Disc, px: real, py: real, hit: real): Disc { d.(vx := d.vx + px, vy := d.vy + py, hit := hit) }

  /** Two touching discs that close in push each other apart along the line between them. */
  function Kick(D: Rules, a: Disc, b: Disc, nx: real, ny: real): Met {
    var rv := Along(b.vx - a.vx, b.vy - a.vy, nx, ny);
    if rv < 0.0 then
      var j := Impulse(D, rv);
      Met(Pushed(a, -Part(j, nx), -Part(j, ny), -rv), Pushed(b, Part(j, nx), Part(j, ny), -rv), true)
    else Met(a, b, false)
  }

  lemma RootPositive(dx: real, dy: real, root: real -> real)
    requires IsRoot(root) && Sq(dx) + Sq(dy) != 0.0
    ensures root(Sq(dx) + Sq(dy)) > 0.0
  {
    Positive(dx);
    Positive(dy);
    var q := Sq(dx) + Sq(dy);
    Positive(root(q));
    hide Sq;
  }

  lemma UnitLine(dx: real, dy: real, root: real -> real)
    requires IsRoot(root) && Sq(dx) + Sq(dy) != 0.0
    ensures var d := root(Sq(dx) + Sq(dy)); d > 0.0 && Sq(Shrunk(dx, 1.0, d)) + Sq(Shrunk(dy, 1.0, d)) == 1.0
  {
    RootPositive(dx, dy, root);
    Positive(dx);
    Positive(dy);
    var d := root(Sq(dx) + Sq(dy));
    assert Sq(1.0) == 1.0;
    hide Sq, Shrunk;
    Scaled(dx, dy, d, 1.0);
  }

  /** A kick keeps the momentum, and never adds to the squared speeds. */
  lemma KickKeeps(D: Rules, a: Disc, b: Disc, nx: real, ny: real)
    requires Physical(D) && Sq(nx) + Sq(ny) == 1.0
    ensures var m := Kick(D, a, b, nx, ny);
      && m.a.vx + m.b.vx == a.vx + b.vx && m.a.vy + m.b.vy == a.vy + b.vy
      && Square(m.a) + Square(m.b) <= Square(a) + Square(b)
  {
    hide Sq, Impulse, Along, Part;
    var rv := Along(b.vx - a.vx, b.vy - a.vy, nx, ny);
    if rv < 0.0 {
      var j := Impulse(D, rv);
      var px, py := Part(j, nx), Part(j, ny);
      KickSign(D, rv, j);
      KickEnergy(a.vx, a.vy, b.vx, b.vy, nx, ny, j, px, py, rv);
      PushedPair(a, b, px, py, -rv, Part(j, rv + j));
    }
  }

  lemma PushedPair(a: Disc, b: Disc, px: real, py: real, hit: real, gain: real)
    requires gain <= 0.0
    requires Sq(a.vx - px) + Sq(a.vy - py) + (Sq(b.vx + px) + Sq(b.vy + py)) == Sq(a.vx) + Sq(a.vy)
      + (Sq(b.vx) + Sq(b.vy)) + 2.0 * gain
    ensures Square(Pushed(a, -px, -py, hit)) + Square(Pushed(b, px, py, hit)) <= Square(a) + Square(b)
  {
    hide Sq;
  }

  lemma KickSign(D: Rules, rv: real, j: real)
    requires Physical(D) && rv < 0.0 && j == Impulse(D, rv)
    ensures Part(j, rv + j) <= 0.0
  {
    var e := D.bounce;
    Signs(-(1.0 + e), rv, -(1.0 + e) * rv);
    assert j > 0.0;
    assert rv + j == (1.0 - e) * rv / 2.0;
    NotPositive(1.0 - e, rv);
    hide Impulse;
    NotPositive(j, rv + j);
  }

  lemma KickEnergy(ax: real, ay: real, bx: real, bz: real, nx: real, ny: real, j: real, px: real, py: real, rv: real)
    requires Sq(nx) + Sq(ny) == 1.0 && px == Part(j, nx) && py == Part(j, ny) && rv == Along(bx - ax, bz - ay, nx, ny)
    ensures Sq(ax - px) + Sq(ay - py) + (Sq(bx + px) + Sq(bz + py)) == Sq(ax) + Sq(ay) + (Sq(bx) + Sq(bz))
      + 2.0 * Part(j, rv + j)
  {
    hide Sq, Part, Along;
    KickAxis(ax, bx, nx, j, px);
    KickAxis(ay, bz, ny, j, py);
    Shares(Sq(nx), Sq(ny), Sq(j));
    AlongParts(bx - ax, bz - ay, nx, ny);
    Weighted(j, Part(bx - ax, nx), Part(bz - ay, ny), rv);
  }

  lemma AlongParts(x: real, y: real, nx: real, ny: real)
    ensures Along(x, y, nx, ny) == Part(x, nx) + Part(y, ny)
  {
  }

  lemma Shares(p: real, q: real, r: real)
    requires p + q == 1.0
    ensures Part(p, r) + Part(q, r) == r
  {
    Distributes(p, q, r);
  }

  lemma Weighted(j: real, rx: real, ry: real, rv: real)
    requires rv == rx + ry
    ensures Part(j, rv + j) == Part(j, rx) + Part(j, ry) + Sq(j)
  {
    assert j * (rx + ry + j) == j * rx + j * ry + j * j;
  }

  lemma KickAxis(a: real, b: real, n: real, j: real, m: real)
    requires m == Part(j, n)
    ensures Sq(a - m) + Sq(b + m) == Sq(a) + Sq(b) + 2.0 * Part(j, Part(b - a, n)) + 2.0 * Part(Sq(n), Sq(j))
  {
    assert Sq(a - m) == Sq(a) - 2.0 * (a * m) + Sq(m);
    assert Sq(b + m) == Sq(b) + 2.0 * (b * m) + Sq(m);
    Product(j, n);
    assert (b - a) * m == b * m - a * m;
    Commutes(b - a, j, n);
    assert Sq(j) * Sq(n) == Sq(n) * Sq(j);
    hide Sq;
  }

  lemma Commutes(d: real, j: real, n: real)
    ensures d * Part(j, n) == Part(j, Part(d, n))
  {
  }

  lemma MeetKeeps(D: Rules, a: Disc, b: Disc, root: real -> real)
    requires Physical(D) && IsRoot(root)
    ensures var m := Meet(D, a, b, root);
      && m.a.vx + m.b.vx == a.vx + b.vx && m.a.vy + m.b.vy == a.vy + b.vy
      && Square(m.a) + Square(m.b) <= Square(a) + Square(b)
      && (Square(a) == 0.0 && Square(b) == 0.0 ==> !m.hit)
  {
    hide Sq, Part, Shrunk;
    SquareNotNegative(a);
    SquareNotNegative(b);
    if Touch(a, b) {
      var dx, dy, min := b.x - a.x, b.y - a.y, a.r + b.r;
      var d := root(Sq(dx) + Sq(dy));
      UnitLine(dx, dy, root);
      var nx, ny, push := Shrunk(dx, 1.0, d), Shrunk(dy, 1.0, d), (min - d) / 2.0;
      var a1 := a.(x := a.x - Part(push, nx), y := a.y - Part(push, ny));
      var b1 := b.(x := b.x + Part(push, nx), y := b.y + Part(push, ny));
      KickKeeps(D, a1, b1, nx, ny);
      if Square(a) == 0.0 && Square(b) == 0.0 { StillPair(D, a1, b1, nx, ny); }
      assert Meet(D, a, b, root) == Kick(D, a1, b1, nx, ny);
      assert Square(a1) == Square(a) && Square(b1) == Square(b);
      hide Kick;
    }
  }

  lemma StillPair(D: Rules, a: Disc, b: Disc, nx: real, ny: real)
    requires a.vx == a.vy == b.vx == b.vy == 0.0
    ensures !Kick(D, a, b, nx, ny).hit
  {
  }

  // ---------- all discs ----------

  function Vx(d: Disc): real { d.vx }
  function Vy(d: Disc): real { d.vy }

  function Total(ds: seq<Disc>, f: Disc -> real): real {
    if ds == [] then 0.0 else Total(ds[..|ds| - 1], f) + f(ds[|ds| - 1])
  }

  function Energy(ds: seq<Disc>): real { Total(ds, Square) }

  lemma {:induction false} TotalUpdate(ds: seq<Disc>, i: nat, d: Disc, f: Disc -> real)
    requires i < |ds|
    ensures Total(ds[i := d], f) == Total(ds, f) - f(ds[i]) + f(d)
    decreases |ds|
  {
    var m, n := ds[..|ds| - 1], ds[i := d];
    if i == |ds| - 1 {
      assert n[..|ds| - 1] == m;
    } else {
      TotalUpdate(m, i, d, f);
      assert n[..|ds| - 1] == m[i := d];
    }
  }

  lemma {:induction false} PartOfEnergy(ds: seq<Disc>, i: nat)
    requires i < |ds|
    ensures 0.0 <= Square(ds[i]) <= Energy(ds)
    decreases |ds|
  {
    SquareNotNegative(ds[|ds| - 1]);
    hide Square;
    EnergyNotNegative(ds[..|ds| - 1]);
    if i < |ds| - 1 { PartOfEnergy(ds[..|ds| - 1], i); }
  }

  lemma {:induction false} EnergyNotNegative(ds: seq<Disc>)
    ensures Energy(ds) >= 0.0
    decreases |ds|
  {
    if ds != [] {
      SquareNotNegative(ds[|ds| - 1]);
      hide Square;
      EnergyNotNegative(ds[..|ds| - 1]);
    }
  }

  predicate AtRest(ds: seq<Disc>) { forall i :: 0 <= i < |ds| ==> ds[i].vx == 0.0 && ds[i].vy == 0.0 }

  lemma NoEnergyRests(ds: seq<Disc>)
    requires Energy(ds) == 0.0
    ensures AtRest(ds)
  {
    forall i | 0 <= i < |ds| ensures ds[i].vx == 0.0 && ds[i].vy == 0.0 {
      PartOfEnergy(ds, i);
      SquareNotNegative(ds[i]);
      hide Square;
    }
  }

  datatype Outcome = Outcome(list: seq<Disc>, moving: bool)

  function Clash(D: Rules, ds: seq<Disc>, i: nat, j: nat, root: real -> real): (r: Outcome)
    requires IsRoot(root) && i < j < |ds|
    ensures |r.list| == |ds|
  {
    var m := Meet(D, ds[i], ds[j], root);
    Outcome(ds[i := m.a][j := m.b], m.hit)
  }

  lemma ClashTotal(D: Rules, ds: seq<Disc>, i: nat, j: nat, root: real -> real, f: Disc -> real)
    requires IsRoot(root) && i < j < |ds|
    ensures var m := Meet(D, ds[i], ds[j], root);
      Total(Clash(D, ds, i, j, root).list, f) == Total(ds, f) - f(ds[i]) - f(ds[j]) + f(m.a) + f(m.b)
  {
    hide Meet, IsRoot;
    var m := Meet(D, ds[i], ds[j], root);
    TotalUpdate(ds, i, m.a, f);
    TotalUpdate(ds[i := m.a], j, m.b, f);
  }

  /**
    Every collision of a pair keeps the momentum and never raises the sum of squared speeds; discs at rest do not
    collide.
   */
  lemma ClashKeeps(D: Rules, ds: seq<Disc>, i: nat, j: nat, root: real -> real)
    requires Physical(D) && IsRoot(root) && i < j < |ds|
    ensures var r := Clash(D, ds, i, j, root);
      && Total(r.list, Vx) == Total(ds, Vx) && Total(r.list, Vy) == Total(ds, Vy)
      && Energy(r.list) <= Energy(ds) && (Energy(ds) == 0.0 ==> !r.moving)
  {
    MeetKeeps(D, ds[i], ds[j], root);
    ClashTotal(D, ds, i, j, root, Vx);
    ClashTotal(D, ds, i, j, root, Vy);
    ClashTotal(D, ds, i, j, root, Square);
    PartOfEnergy(ds, i);
    PartOfEnergy(ds, j);
    hide Meet, IsRoot, Square;
  }

  /** The pairs from (i, j) on, in the order the loops take them. */
  function Clashes(D: Rules, ds: seq<Disc>, i: nat, j: nat, root: real -> real): (r: Outcome)
    requires IsRoot(root) && i < j
    ensures |r.list| == |ds|
    decreases |ds| - i, |ds| - j
  {
    if i >= |ds| then Outcome(ds, false)
    else if j >= |ds| then Clashes(D, ds, i + 1, i + 2, root)
    else
      var c := Clash(D, ds, i, j, root);
      var rest := Clashes(D, c.list, i, j + 1, root);
      Outcome(rest.list, c.moving || rest.moving)
  }

  lemma {:induction false} ClashesKeep(D: Rules, ds: seq<Disc>, i: nat, j: nat, root: real -> real)
    requires Physical(D) && IsRoot(root) && i < j
    ensures var r := Clashes(D, ds, i, j, root);
      && Total(r.list, Vx) == Total(ds, Vx) && Total(r.list, Vy) == Total(ds, Vy)
      && Energy(r.list) <= Energy(ds) && (Energy(ds) == 0.0 ==> !r.moving)
    decreases |ds| - i, |ds| - j
  {
    hide Clash, IsRoot, Total, Square, Physical;
    if i < |ds| {
      if j >= |ds| {
        ClashesKeep(D, ds, i + 1, i + 2, root);
      } else {
        ClashKeeps(D, ds, i, j, root);
        var c := Clash(D, ds, i, j, root);
        ClashesKeep(D, c.list, i, j + 1, root);
        EnergyNotNegative(c.list);
      }
    }
  }

  predicate AnyRolls(D: Rules, ds: seq<Disc>, root: real -> real) { exists i :: 0 <= i < |ds| && Rolls(D, ds[i], root) }

  function SlidAll(D: Rules, ds: seq<Disc>, root: real -> real): seq<Disc> {
    seq(|ds|, i requires 0 <= i < |ds| => Slid(D, ds[i], root))
  }

  lemma {:induction false} SlideLoses(D: Rules, ds: seq<Disc>, root: real -> real)
    requires Physical(D) && IsRoot(root)
    ensures Energy(SlidAll(D, ds, root)) <= Energy(ds) - (if AnyRolls(D, ds, root) then Loss(D) else 0.0)
    ensures !AnyRolls(D, ds, root) ==> Energy(SlidAll(D, ds, root)) == 0.0
    decreases |ds|
  {
    hide Slid, Rolls, Square, Loss, IsRoot;
    if ds != [] {
      var most, d := ds[..|ds| - 1], ds[|ds| - 1];
      SlideLoses(D, most, root);
      SlidLoses(D, d, root);
      assert SlidAll(D, ds, root)[..|ds| - 1] == SlidAll(D, most, root);
      assert AnyRolls(D, ds, root) <==> AnyRolls(D, most, root) || Rolls(D, d, root) by {
        if AnyRolls(D, most, root) {
          var i :| 0 <= i < |most| && Rolls(D, most[i], root);
          assert Rolls(D, ds[i], root);
        }
        if Rolls(D, d, root) { assert Rolls(D, ds[|ds| - 1], root); }
      }
      hide AnyRolls;
    }
  }

  function Step(D: Rules, ds: seq<Disc>, root: real -> real): Outcome
    requires IsRoot(root)
  {
    var c := Clashes(D, SlidAll(D, ds, root), 0, 1, root);
    Outcome(c.list, AnyRolls(D, ds, root) || c.moving)
  }

  /** A step that reports movement costs a fixed amount; one that does not leaves everything at rest. */
  lemma StepLoses(D: Rules, ds: seq<Disc>, root: real -> real)
    requires Physical(D) && IsRoot(root)
    ensures var r := Step(D, ds, root);
      && |r.list| == |ds|
      && (if r.moving then Energy(r.list) <= Energy(ds) - Loss(D) else AtRest(r.list))
      && 0.0 <= Energy(r.list) <= Energy(ds)
      && Loss(D) > 0.0
  {
    hide Total, Square, AnyRolls, SlidAll, Clashes, IsRoot, AtRest, Loss;
    var slid := SlidAll(D, ds, root);
    SlideLoses(D, ds, root);
    SameLength(D, ds, root);
    ClashesKeep(D, slid, 0, 1, root);
    EnergyNotNegative(Step(D, ds, root).list);
    LossPositive(D);
    if !Step(D, ds, root).moving { NoEnergyRests(Step(D, ds, root).list); }
  }

  lemma SameLength(D: Rules, ds: seq<Disc>, root: real -> real)
    ensures |SlidAll(D, ds, root)| == |ds|
  {
  }

  // ---------- in place ----------

  method SlideEach(D: Rules, a: array<Disc>, root: real -> real) returns (moving: bool)
    requires Physical(D) && IsRoot(root)
    modifies a
    ensures a[..] == SlidAll(D, old(a[..]), root) && moving == AnyRolls(D, old(a[..]), root)
  {
    hide IsRoot;
    moving := false;
    ghost var was := a[..];
    for i := 0 to a.Length
      invariant forall k :: 0 <= k < i ==> a[k] == Slid(D, was[k], root)
      invariant forall k :: i <= k < a.Length ==> a[k] == was[k]
      invariant moving <==> exists k :: 0 <= k < i && Rolls(D, was[k], root)
    {
      var s := a[i];
      var d, rolls := SlideOne(D, s, root);
      a[i] := d;
      if rolls { moving := true; }
      hide Slid, Rolls;
    }
  }

  method SlideOne(D: Rules, d: Disc, root: real -> real) returns (s: Disc, rolls: bool)
    ensures s == Slid(D, d, root) && rolls == Rolls(D, d, root)
  {
    s, rolls := d, false;
    var v := root(Sq(s.vx) + Sq(s.vy));
    if v > 0.0 {
      var nv := v - D.decel * STEP;
      if nv <= D.stop {
        s := s.(vx := 0.0, vy := 0.0);
      } else {
        s := s.(vx := Shrunk(s.vx, nv, v), vy := Shrunk(s.vy, nv, v));
        rolls := true;
      }
    }
    s := s.(x := s.x + s.vx * STEP, y := s.y + s.vy * STEP);
    if D.side {
      if s.x < s.r { s := s.(x := s.r, vx := -s.vx * 0.5); }
      if s.x > W - s.r { s := s.(x := W - s.r, vx := -s.vx * 0.5); }
    }
  }

  method ClashEach(D: Rules, a: array<Disc>, root: real -> real) returns (hit: bool)
    requires Physical(D) && IsRoot(root)
    modifies a
    ensures Outcome(a[..], hit) == Clashes(D, old(a[..]), 0, 1, root)
  {
    hide IsRoot, Meet;
    hit := false;
    ghost var goal := Clashes(D, a[..], 0, 1, root);
    var i := 0;
    while i < a.Length
      invariant 0 <= i <= a.Length
      invariant var c := Clashes(D, a[..], i, i + 1, root); goal == Outcome(c.list, hit || c.moving)
    {
      var j := i + 1;
      while j < a.Length
        invariant i < j <= a.Length
        invariant var c := Clashes(D, a[..], i, j, root); goal == Outcome(c.list, hit || c.moving)
      {
        ghost var was := a[..];
        var m := Meet(D, a[i], a[j], root);
        a[i] := m.a;
        a[j] := m.b;
        assert a[..] == was[i := m.a][j := m.b];
        hit := hit || m.hit;
        j := j + 1;
      }
      i := i + 1;
    }
  }

  method DiscStep(D: Rules, a: array<Disc>, root: real -> real) returns (moving: bool)
    requires Physical(D) && IsRoot(root)
    modifies a
    ensures Outcome(a[..], moving) == Step(D, old(a[..]), root)
    ensures if moving then Energy(a[..]) <= Energy(old(a[..])) - Loss(D) else AtRest(a[..])
    ensures Loss(D) > 0.0 && 0.0 <= Energy(a[..]) <= Energy(old(a[..]))
  {
    hide IsRoot, SlidAll, Clashes, AnyRolls, Total, Square, AtRest, Loss;
    StepLoses(D, a[..], root);
    moving := SlideEach(D, a, root);
    var hit := ClashEach(D, a, root);
    moving := moving || hit;
  }

  /** The discs after so many steps. */
  function After(D: Rules, ds: seq<Disc>, n: nat, root: real -> real): seq<Disc>
    requires IsRoot(root)
  {
    if n == 0 then ds else Step(D, After(D, ds, n - 1, root), root).list
  }

  /** What n steps cost at least. */
  function Cost(loss: real, n: int): real { loss * n as real }

  lemma CostGrows(loss: real, n: int)
    ensures Cost(loss, n + 1) == Cost(loss, n) + loss && Cost(loss, 0) == 0.0
  {
    assert (n + 1) as real == n as real + 1.0;
    Distributes(n as real, 1.0, loss);
  }

  /** Every throw comes to rest, after a number of steps that its speed bounds. */
  method RollOut(D: Rules, a: array<Disc>, root: real -> real) returns (steps: nat)
    requires Physical(D) && IsRoot(root)
    modifies a
    ensures AtRest(a[..]) && a[..] == After(D, old(a[..]), steps, root)
    ensures steps >= 1 && Cost(Loss(D), steps - 1) <= Energy(old(a[..]))
  {
    hide IsRoot, Step, Energy, AtRest, Loss, Physical, Cost, Below;
    EnergyNotNegative(old(a[..]));
    var moving := DiscStep(D, a, root);
    steps := 1;
    CostGrows(Loss(D), 0);
    while moving
      invariant steps >= 1 && Loss(D) > 0.0 && 0.0 <= Energy(a[..])
      invariant a[..] == After(D, old(a[..]), steps, root)
      invariant moving ==> Energy(a[..]) + Cost(Loss(D), steps) <= Energy(old(a[..]))
      invariant !moving ==> AtRest(a[..]) && Cost(Loss(D), steps - 1) <= Energy(old(a[..]))
      decreases moving, Below(Energy(a[..]), Loss(D))
    {
      ghost var e := Energy(a[..]);
      moving := DiscStep(D, a, root);
      CostGrows(Loss(D), steps);
      steps := steps + 1;
      if moving { BelowDrops(Energy(a[..]), e, Loss(D)); }
    }
  }

  /** How often a loss fits into what is left. */
  ghost function Below(e: real, loss: real): nat
    requires loss > 0.0 && e >= 0.0
  {
    assert e / loss >= 0.0;
    (e / loss).Floor
  }

  lemma BelowDrops(e': real, e: real, loss: real)
    requires loss > 0.0 && 0.0 <= e' <= e - loss
    ensures Below(e', loss) < Below(e, loss)
  {
    assert e / loss - e' / loss == (e - e') / loss;
    assert (e - e') / loss >= 1.0;
  }
}
