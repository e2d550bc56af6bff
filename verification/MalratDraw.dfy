/** From strokes to the text of a link: simplified, rounded to the grid, packed; and how far the picture is off then. */
module MalratDraw {
  import opened Options
  import opened Reals
  import opened MalratSimplify
  import opened MalratText

  /** A stroke: colour, width and points from 0 to 1. */
  datatype Line = Line(c: nat, w: nat, p: seq<Pt>)

  predicate Drawing(l: Line) {
    l.c < 8 && l.w < 3 && forall k :: 0 <= k < |l.p| ==> 0.0 <= l.p[k].x <= 1.0 && 0.0 <= l.p[k].y <= 1.0
  }

  const EPS: seq<real> := [0.45, 0.8, 1.3, 2.0]

  function ToGrid(p: Pt): Pt { Pt(p.x * 63.0, p.y * 63.0) }

  function GridPoints(ps: seq<Pt>): (r: seq<Pt>)
    ensures |r| == |ps| && forall k :: 0 <= k < |ps| ==> r[k] == ToGrid(ps[k])
  {
    seq(|ps|, k requires 0 <= k < |ps| => ToGrid(ps[k]))
  }

  function Clamp63(v: int): int { if v < 0 then 0 else if v > 63 then 63 else v }

  /** The grid line nearest to v times 63, for v from 0 to 1. */
  function CellAt(v: real): int { Clamp63((v * 63.0 + 0.5).Floor) }

  function CellFor(p: Pt): Cell { Cell(CellAt(p.x / 63.0), CellAt(p.y / 63.0)) }

  /** Cells in a row that are the same count once. */
  function Dedup(cs: seq<Cell>): (r: seq<Cell>)
    ensures cs != [] ==> r != [] && r[|r| - 1] == cs[|cs| - 1]
    ensures forall k :: 0 <= k < |r| ==> r[k] in cs
  {
    if cs == [] then []
    else
      var most, c := cs[..|cs| - 1], cs[|cs| - 1];
      assert cs == most + [c];
      var r := Dedup(most);
      if r != [] && r[|r| - 1] == c then r else r + [c]
  }

  function CellsFor(g: seq<Pt>): (r: seq<Cell>)
    ensures |r| == |g| && forall k :: 0 <= k < |g| ==> r[k] == CellFor(g[k])
  {
    seq(|g|, k requires 0 <= k < |g| => CellFor(g[k]))
  }

  // ---------- how far off ----------

  function Corner(c: Cell): Pt { Pt(c.x as real, c.y as real) }

  /** The place t of the way from cell k to the next cell; a last cell stands for itself. */
  function Along2(cs: seq<Cell>, k: nat, t: real): Pt
    requires k < |cs|
  {
    Between(Corner(cs[k]), Corner(cs[if k + 1 < |cs| then k + 1 else k]), t)
  }

  function Dist(p: Pt, q: Pt, root: real -> real): real { Norm(p.x - q.x, p.y - q.y, root) }

  /** p lies within d of the drawn line. */
  ghost predicate NearLine(p: Pt, cs: seq<Cell>, d: real, root: real -> real) {
    exists k: nat, t: real :: k < |cs| && 0.0 <= t <= 1.0 && Dist(p, Along2(cs, k, t), root) <= d
  }

  /** Half the diagonal of a cell, added to the tolerance. */
  function Bound(eps: real, root: real -> real): real { eps + root(0.5) }

  predicate Halves(x: real, y: real) { -0.5 <= x <= 0.5 && -0.5 <= y <= 0.5 }

  lemma RoundedNear(v: real)
    requires 0.0 <= v <= 63.0
    ensures 0 <= CellAt(v / 63.0) < 64 && -0.5 <= CellAt(v / 63.0) as real - v <= 0.5
  {
    assert v / 63.0 * 63.0 == v;
  }

  lemma CellNear(p: Pt)
    requires 0.0 <= p.x <= 63.0 && 0.0 <= p.y <= 63.0
    ensures OnGrid(CellFor(p)) && Halves(Corner(CellFor(p)).x - p.x, Corner(CellFor(p)).y - p.y)
  {
    RoundedNear(p.x);
    RoundedNear(p.y);
    hide CellAt;
  }

  lemma HalfSquare(x: real)
    requires -0.5 <= x <= 0.5
    ensures Sq(x) <= 0.25
  {
    NotNegative(0.5 - x, 0.5 + x, 0.25 - Sq(x));
  }

  lemma Monotone(a: real, b: real, root: real -> real)
    requires IsRoot(root) && 0.0 <= a <= b
    ensures root(a) <= root(b)
  {
    if root(a) > root(b) { Bigger(root(b), root(a)); }
  }

  lemma HalvesNorm(x: real, y: real, root: real -> real)
    requires IsRoot(root) && Halves(x, y)
    ensures Norm(x, y, root) <= root(0.5)
  {
    HalfSquare(x);
    HalfSquare(y);
    Positive(x);
    Positive(y);
    Monotone(Sq(x) + Sq(y), 0.5, root);
    hide Sq;
  }

  // ---------- the triangle inequality ----------

  lemma NormIs(x: real, y: real, root: real -> real)
    requires IsRoot(root)
    ensures Norm(x, y, root) >= 0.0 && Sq(Norm(x, y, root)) == Sq(x) + Sq(y)
  {
    Positive(x);
    Positive(y);
    hide Sq;
  }

  lemma Lagrange(a: real, b: real, c: real, d: real)
    ensures (Sq(a) + Sq(b)) * (Sq(c) + Sq(d)) == Sq(Along(a, b, c, d)) + Sq(a * d - b * c)
  {
    var p, q, r, s := a * c, b * d, a * d, b * c;
    assert Sq(a) * Sq(c) == Sq(p) by { Product(a, c); }
    assert Sq(b) * Sq(d) == Sq(q) by { Product(b, d); }
    assert Sq(a) * Sq(d) == Sq(r) by { Product(a, d); }
    assert Sq(b) * Sq(c) == Sq(s) by { Product(b, c); }
    assert p * q == r * s;
    SumSquare(p, q);
    DiffSquare(r, s);
    FourTerms(Sq(a), Sq(b), Sq(c), Sq(d));
    assert Along(a, b, c, d) == p + q;
    hide Sq;
  }

  lemma FourTerms(a: real, b: real, c: real, d: real)
    ensures (a + b) * (c + d) == a * c + a * d + b * c + b * d
  {
  }

  lemma SumSquare(p: real, q: real)
    ensures Sq(p + q) == Sq(p) + 2.0 * (p * q) + Sq(q)
  {
  }

  lemma DiffSquare(p: real, q: real)
    ensures Sq(p - q) == Sq(p) - 2.0 * (p * q) + Sq(q)
  {
  }

  lemma CauchySchwarz(a: real, b: real, c: real, d: real, m: real, n: real)
    requires m >= 0.0 && n >= 0.0 && Sq(m) == Sq(a) + Sq(b) && Sq(n) == Sq(c) + Sq(d)
    ensures Along(a, b, c, d) <= m * n
  {
    Lagrange(a, b, c, d);
    Positive(a * d - b * c);
    Product(m, n);
    NotNegative(m, n, m * n);
    var x, y := Along(a, b, c, d), m * n;
    assert Sq(x) <= Sq(y) by { hide Sq, Along; }
    hide Along;
    if x > y { Bigger(y, x); }
  }

  lemma Triangle(a: real, b: real, c: real, d: real, root: real -> real)
    requires IsRoot(root)
    ensures Norm(a + c, b + d, root) <= Norm(a, b, root) + Norm(c, d, root)
  {
    var m, n, s := Norm(a, b, root), Norm(c, d, root), Norm(a + c, b + d, root);
    NormIs(a, b, root);
    NormIs(c, d, root);
    NormIs(a + c, b + d, root);
    hide Norm, IsRoot;
    CauchySchwarz(a, b, c, d, m, n);
    SumSquare(a, c);
    SumSquare(b, d);
    SumSquare(m, n);
    assert Along(a, b, c, d) == a * c + b * d;
    assert Sq(s) <= Sq(m + n) by { hide Sq, Along; }
    hide Sq, Along;
    if s > m + n { Bigger(m + n, s); }
  }

  // ---------- rounding moves a segment by half a cell at most ----------

  lemma Blend(a: real, b: real, t: real)
    requires -0.5 <= a <= 0.5 && -0.5 <= b <= 0.5 && 0.0 <= t <= 1.0
    ensures -0.5 <= a + Part(t, b - a) <= 0.5
  {
    var y := Part(t, b - a);
    var u, v := (1.0 - t) * (0.5 - a), t * (0.5 - b);
    NotNegative(1.0 - t, 0.5 - a, u);
    NotNegative(t, 0.5 - b, v);
    assert u + v == 0.5 - (a + y);
    var u', v' := (1.0 - t) * (0.5 + a), t * (0.5 + b);
    NotNegative(1.0 - t, 0.5 + a, u');
    NotNegative(t, 0.5 + b, v');
    assert u' + v' == 0.5 + (a + y);
  }

  lemma Shifted(a: real, b: real, a': real, b': real, t: real)
    ensures (a' + Part(t, b' - a')) - (a + Part(t, b - a)) == (a' - a) + Part(t, (b' - b) - (a' - a))
  {
    Distributes(b - a, (b' - b) - (a' - a), t);
  }

  /** The rounded segment passes as close to p as the true one, give or take half a cell's diagonal. */
  lemma RoundedSegment(p: Pt, a: Pt, b: Pt, a': Pt, b': Pt, eps: real, root: real -> real)
    requires IsRoot(root) && Off(p, a, b, root) <= eps && Halves(a'.x - a.x, a'.y - a.y)
    requires Halves(b'.x - b.x, b'.y - b.y)
    ensures Dist(p, Between(a', b', Foot(p, a, b)), root) <= Bound(eps, root)
  {
    var t := Foot(p, a, b);
    var f, g := Between(a, b, t), Between(a', b', t);
    Shifted(a.x, b.x, a'.x, b'.x, t);
    Shifted(a.y, b.y, a'.y, b'.y, t);
    Blend(a'.x - a.x, b'.x - b.x, t);
    Blend(a'.y - a.y, b'.y - b.y, t);
    assert Halves(g.x - f.x, g.y - f.y);
    hide Foot, Between, Part, IsRoot;
    FarSide(f, g, p, eps, root);
  }

  lemma FarSide(f: Pt, g: Pt, p: Pt, eps: real, root: real -> real)
    requires IsRoot(root) && Norm(f.x - p.x, f.y - p.y, root) <= eps && Halves(g.x - f.x, g.y - f.y)
    ensures Dist(p, g, root) <= Bound(eps, root)
  {
    HalvesNorm(g.x - f.x, g.y - f.y, root);
    Triangle(g.x - f.x, g.y - f.y, f.x - p.x, f.y - p.y, root);
    Turned(g.x - p.x, g.y - p.y, root);
    hide Norm, IsRoot;
    assert g.x - f.x + (f.x - p.x) == g.x - p.x && g.y - f.y + (f.y - p.y) == g.y - p.y;
    assert -(g.x - p.x) == p.x - g.x && -(g.y - p.y) == p.y - g.y;
  }

  lemma Turned(x: real, y: real, root: real -> real)
    ensures Norm(-x, -y, root) == Norm(x, y, root)
  {
    assert Sq(-x) == Sq(x);
    assert Sq(-y) == Sq(y);
    hide Sq;
  }

  // ---------- the cells of a line ----------

  /** A cell and its successor are still there, next to each other, when repetitions are dropped. */
  lemma {:induction false} DedupCovers(cs: seq<Cell>, k: nat) returns (j: nat)
    requires k < |cs|
    ensures j < |Dedup(cs)| && Dedup(cs)[j] == cs[k]
    ensures k + 1 < |cs| ==> cs[k + 1] == cs[k] || (j + 1 < |Dedup(cs)| && Dedup(cs)[j + 1] == cs[k + 1])
    ensures k + 1 == |cs| ==> j + 1 == |Dedup(cs)|
    decreases |cs|
  {
    var n := |cs| - 1;
    var most, c := cs[..n], cs[n];
    if k == n {
      j := |Dedup(cs)| - 1;
    } else {
      j := DedupCovers(most, k);
      assert most[k] == cs[k];
      if k + 1 < n { assert most[k + 1] == cs[k + 1]; }
    }
  }

  /** A point left out over segment k of the kept cells lies near the drawn line. */
  lemma NearSegment(p: Pt, a: Pt, b: Pt, cs: seq<Cell>, k: nat, eps: real, root: real -> real)
    requires IsRoot(root) && k + 1 < |cs| && Off(p, a, b, root) <= eps
    requires Halves(Corner(cs[k]).x - a.x, Corner(cs[k]).y - a.y)
    requires Halves(Corner(cs[k + 1]).x - b.x, Corner(cs[k + 1]).y - b.y)
    ensures NearLine(p, Dedup(cs), Bound(eps, root), root)
  {
    var j := DedupCovers(cs, k);
    var t := Foot(p, a, b);
    RoundedSegment(p, a, b, Corner(cs[k]), Corner(cs[k + 1]), eps, root);
    var ds := Dedup(cs);
    hide Dedup, Foot, Off, Bound, Dist, IsRoot, Halves;
    if j + 1 < |ds| && ds[j + 1] == cs[k + 1] {
      assert Along2(ds, j, t) == Between(Corner(cs[k]), Corner(cs[k + 1]), t);
    } else {
      Standing(Corner(cs[k]), t);
      LastStands(ds, j, t);
    }
    hide Between;
    assert Dist(p, Along2(ds, j, if j + 1 < |ds| && ds[j + 1] == cs[k + 1] then t else 0.0), root) <= Bound(eps, root);
  }

  lemma Standing(a: Pt, t: real)
    ensures Between(a, a, t) == a
  {
    assert Part(t, 0.0) == 0.0;
  }

  lemma LastStands(cs: seq<Cell>, j: nat, t: real)
    requires j < |cs|
    ensures Along2(cs, j, 0.0) == Corner(cs[j])
  {
    var b := Corner(cs[if j + 1 < |cs| then j + 1 else j]);
    assert Part(0.0, b.x - Corner(cs[j]).x) == 0.0 && Part(0.0, b.y - Corner(cs[j]).y) == 0.0;
  }

  /** A kept point lies near its own cell. */
  lemma NearOwnCell(p: Pt, cs: seq<Cell>, k: nat, eps: real, root: real -> real)
    requires IsRoot(root) && k < |cs| && eps >= 0.0 && Halves(Corner(cs[k]).x - p.x, Corner(cs[k]).y - p.y)
    ensures NearLine(p, Dedup(cs), Bound(eps, root), root)
  {
    var j := DedupCovers(cs, k);
    OwnDist(p, Corner(cs[k]), eps, root);
    var ds := Dedup(cs);
    LastStands(ds, j, 0.0);
    hide Dedup, IsRoot, Along2, Corner, Dist, Bound, Halves;
    assert Dist(p, Along2(ds, j, 0.0), root) <= Bound(eps, root);
  }

  lemma OwnDist(p: Pt, q: Pt, eps: real, root: real -> real)
    requires IsRoot(root) && eps >= 0.0 && Halves(q.x - p.x, q.y - p.y)
    ensures Dist(p, q, root) <= Bound(eps, root)
  {
    HalvesNorm(q.x - p.x, q.y - p.y, root);
    Turned(q.x - p.x, q.y - p.y, root);
    hide Norm, IsRoot;
    assert -(q.x - p.x) == p.x - q.x && -(q.y - p.y) == p.y - q.y;
  }

  /** Where a point falls among the chosen indices. */
  lemma {:induction false} Locate(idx: seq<int>, i: int, k: nat) returns (j: nat)
    requires k < |idx| && idx[0] <= i <= idx[k] && forall m :: 0 <= m < |idx| - 1 ==> idx[m] < idx[m + 1]
    ensures j <= k && (idx[j] == i || (j + 1 <= k && idx[j] < i < idx[j + 1]))
    decreases k
  {
    if idx[k] == i {
      j := k;
    } else if idx[k - 1] <= i {
      j := k - 1;
    } else {
      j := Locate(idx, i, k - 1);
    }
  }

  /**
    Every original point lies within the tolerance and half a cell's diagonal of the line drawn through the cells of
    the kept points.
   */
  lemma AllNear(pts: seq<Pt>, idx: seq<int>, kept: seq<Pt>, eps: real, root: real -> real, i: nat)
    requires IsRoot(root) && eps >= 0.0 && i < |pts| && Chosen(pts, idx, eps, root)
    requires |kept| == |idx| && forall k :: 0 <= k < |idx| ==> 0 <= idx[k] < |pts| && kept[k] == pts[idx[k]]
    requires forall k :: 0 <= k < |pts| ==> 0.0 <= pts[k].x <= 63.0 && 0.0 <= pts[k].y <= 63.0
    ensures NearLine(pts[i], Dedup(CellsFor(kept)), Bound(eps, root), root)
  {
    var j := Locate(idx, i, |idx| - 1);
    var cs := CellsFor(kept);
    CellNear(kept[j]);
    if idx[j] == i {
      NearOwnCell(pts[i], cs, j, eps, root);
    } else {
      CellNear(kept[j + 1]);
      assert Close(pts, idx[j], idx[j + 1], eps, root);
      NearSegment(pts[i], pts[idx[j]], pts[idx[j + 1]], cs, j, eps, root);
    }
  }

  // ---------- encode ----------

  ghost predicate Shows(l: Line, d: Drawn, eps: real, root: real -> real) {
    && Drawable(d) && d.c == l.c && d.w == l.w
    && forall i :: 0 <= i < |l.p| ==> NearLine(ToGrid(l.p[i]), d.p, Bound(eps, root), root)
  }

  /** The text of a pen and its cells, a cell that repeats the last one left out. */
  method WriteCells(pen: int, cells: seq<Cell>) returns (s: string, ghost done: seq<Cell>)
    requires 0 <= pen < 64 && forall k :: 0 <= k < |cells| ==> OnGrid(cells[k])
    ensures done == Dedup(cells) && (forall m :: 0 <= m < |done| ==> OnGrid(done[m]))
    ensures s == [Letter(pen)] + CellsText(done)
  {
    hide Letter, Dedup, OnGrid;
    NoCells();
    s, done := [Letter(pen)], [];
    var last: Option<Cell> := None;
    for k := 0 to |cells|
      invariant done == Dedup(cells[..k]) && last == (if k == 0 then None else Some(cells[k - 1]))
      invariant forall m :: 0 <= m < |done| ==> OnGrid(done[m])
      invariant s == [Letter(pen)] + CellsText(done)
    {
      var c := cells[k];
      NextCell(cells, k, done);
      assert OnGrid(c);
      InGrid(c);
      if last != Some(c) {
        MoreText(done, c);
        hide CellsText;
        s := s + [Letter(c.x), Letter(c.y)];
        done := done + [c];
      }
      last := Some(c);
    }
    assert cells[..|cells|] == cells;
  }

  lemma NoCells()
    ensures Dedup([]) == []
  {
  }

  lemma InGrid(c: Cell)
    requires OnGrid(c)
    ensures 0 <= c.x < 64 && 0 <= c.y < 64
  {
  }

  lemma MoreText(done: seq<Cell>, c: Cell)
    requires (forall m :: 0 <= m < |done| ==> OnGrid(done[m])) && OnGrid(c)
    ensures CellsText(done + [c]) == CellsText(done) + [Letter(c.x), Letter(c.y)]
  {
    hide Letter;
    assert (done + [c])[..|done|] == done;
  }

  lemma NextCell(cells: seq<Cell>, k: nat, done: seq<Cell>)
    requires k < |cells| && done == Dedup(cells[..k])
    ensures (k > 0 && cells[k - 1] == cells[k]) ==> Dedup(cells[..k + 1]) == done
    ensures !(k > 0 && cells[k - 1] == cells[k]) ==> Dedup(cells[..k + 1]) == done + [cells[k]]
    ensures (done + [cells[k]])[..|done|] == done
  {
    assert cells[..k + 1][..k] == cells[..k];
  }

  /** What a stroke becomes: the cells of the points that stay, without repetitions. */
  ghost function DrawnOf(l: Line, eps: real, root: real -> real): Drawn {
    Drawn(l.c, l.w, Dedup(CellsFor(KeptPoints(GridPoints(l.p), eps, root))))
  }

  ghost function KeptPoints(pts: seq<Pt>, eps: real, root: real -> real): (g: seq<Pt>)
    ensures Picks(pts, Kept(pts, eps, root), g)
  {
    KeptChosen(pts, eps, root);
    var idx := Kept(pts, eps, root);
    hide Kept, Close;
    seq(|idx|, k requires 0 <= k < |idx| => pts[idx[k]])
  }

  lemma OnePick(pts: seq<Pt>, idx: seq<int>, a: seq<Pt>, b: seq<Pt>)
    requires Picks(pts, idx, a) && Picks(pts, idx, b)
    ensures a == b
  {
  }

  /**
    Every stroke is drawn in its colour and width, every point of it near the line; no cell only if it has no point.
   */
  lemma StrokeShows(l: Line, eps: real, root: real -> real)
    requires Drawing(l) && eps >= 0.0 && IsRoot(root)
    ensures var d := DrawnOf(l, eps, root);
      Drawable(d) && Shows(l, d, eps, root) && (d.p == [] <==> l.p == [])
    ensures forall k :: 0 <= k < |CellsFor(KeptPoints(GridPoints(l.p), eps, root))| ==>
      OnGrid(CellsFor(KeptPoints(GridPoints(l.p), eps, root))[k])
  {
    hide IsRoot, CellFor, Dedup, Shows, OnGrid, Drawable, Drawing, Chosen, Picks, Kept;
    var pts := GridPoints(l.p);
    KeptChosen(pts, eps, root);
    ShowsLine(l, pts, Kept(pts, eps, root), KeptPoints(pts, eps, root), eps, root);
  }

  /** One stroke: its pen, and its cells without repetitions. */
  method EncodeLine(l: Line, eps: real, root: real -> real) returns (s: string)
    requires Drawing(l) && eps >= 0.0 && IsRoot(root)
    ensures Drawable(DrawnOf(l, eps, root)) && s == LineText(DrawnOf(l, eps, root))
    ensures Shows(l, DrawnOf(l, eps, root), eps, root)
  {
    assert 0 <= l.c * 3 + l.w < 64;
    hide IsRoot, Dedup, CellsText, Shows, OnGrid, Drawable, Drawing;
    hide Letter, Kept, Picks, CellFor, ToGrid, LineText, DrawnOf;
    var pts := GridPoints(l.p);
    var g := Simplify(pts, eps, root);
    OnePick(pts, Kept(pts, eps, root), g, KeptPoints(pts, eps, root));
    StrokeShows(l, eps, root);
    ghost var done;
    s, done := WriteCells(l.c * 3 + l.w, CellsFor(g));
    Written(l, done, s, eps, root);
  }

  lemma Written(l: Line, done: seq<Cell>, s: string, eps: real, root: real -> real)
    requires Drawing(l) && done == Dedup(CellsFor(KeptPoints(GridPoints(l.p), eps, root)))
    requires Drawable(DrawnOf(l, eps, root)) && (forall m :: 0 <= m < |done| ==> OnGrid(done[m]))
    requires s == [Letter(l.c * 3 + l.w)] + CellsText(done)
    ensures s == LineText(DrawnOf(l, eps, root))
  {
    hide *;
    DrawnIs(l, eps, root);
    TextIs(DrawnOf(l, eps, root), s);
  }

  lemma DrawnIs(l: Line, eps: real, root: real -> real)
    ensures DrawnOf(l, eps, root) == Drawn(l.c, l.w, Dedup(CellsFor(KeptPoints(GridPoints(l.p), eps, root))))
  {
    hide Dedup, CellsFor, KeptPoints, GridPoints;
  }

  lemma TextIs(d: Drawn, s: string)
    requires Drawable(d) && s == [Letter(d.c * 3 + d.w)] + CellsText(d.p)
    ensures s == LineText(d)
  {
    hide Letter, CellsText;
  }

  lemma ShowsLine(l: Line, pts: seq<Pt>, idx: seq<int>, g: seq<Pt>, eps: real, root: real -> real)
    requires Drawing(l) && eps >= 0.0 && IsRoot(root) && pts == GridPoints(l.p)
    requires Chosen(pts, idx, eps, root) && Picks(pts, idx, g)
    ensures forall k :: 0 <= k < |g| ==> OnGrid(CellFor(g[k]))
    ensures var d := Drawn(l.c, l.w, Dedup(CellsFor(g)));
      Shows(l, d, eps, root) && Drawable(d) && (d.p == [] <==> l.p == [])
  {
    hide IsRoot, Chosen, CellFor, Dedup, NearLine, ToGrid, Bound, OnGrid;
    OnGridAll(l, pts, idx, g);
    NotEmpty(pts, idx, eps, root);
    DedupOnGrid(CellsFor(g));
    NearAll(pts, idx, g, eps, root);
  }

  lemma NearAll(pts: seq<Pt>, idx: seq<int>, kept: seq<Pt>, eps: real, root: real -> real)
    requires IsRoot(root) && eps >= 0.0 && Chosen(pts, idx, eps, root)
    requires |kept| == |idx| && forall k :: 0 <= k < |idx| ==> 0 <= idx[k] < |pts| && kept[k] == pts[idx[k]]
    requires forall k :: 0 <= k < |pts| ==> 0.0 <= pts[k].x <= 63.0 && 0.0 <= pts[k].y <= 63.0
    ensures forall i :: 0 <= i < |pts| ==> NearLine(pts[i], Dedup(CellsFor(kept)), Bound(eps, root), root)
  {
    hide IsRoot, Chosen, CellFor, Dedup, NearLine, Bound;
    forall i | 0 <= i < |pts|
      ensures NearLine(pts[i], Dedup(CellsFor(kept)), Bound(eps, root), root)
    {
      AllNear(pts, idx, kept, eps, root, i);
    }
  }

  lemma NotEmpty(pts: seq<Pt>, idx: seq<int>, eps: real, root: real -> real)
    requires Chosen(pts, idx, eps, root)
    ensures idx == [] <==> pts == []
  {
    if idx != [] { assert 0 <= idx[0] < |pts|; }
  }

  lemma DedupOnGrid(cs: seq<Cell>)
    requires forall k :: 0 <= k < |cs| ==> OnGrid(cs[k])
    ensures (Dedup(cs) == [] <==> cs == []) && forall k :: 0 <= k < |Dedup(cs)| ==> OnGrid(Dedup(cs)[k])
  {
    hide OnGrid;
    forall k | 0 <= k < |Dedup(cs)|
      ensures OnGrid(Dedup(cs)[k])
    {
      assert Dedup(cs)[k] in cs;
    }
  }

  lemma OnGridAll(l: Line, pts: seq<Pt>, idx: seq<int>, g: seq<Pt>)
    requires Drawing(l) && pts == GridPoints(l.p) && Picks(pts, idx, g)
    ensures forall k :: 0 <= k < |pts| ==> 0.0 <= pts[k].x <= 63.0 && 0.0 <= pts[k].y <= 63.0
    ensures forall k :: 0 <= k < |g| ==> OnGrid(CellFor(g[k]))
  {
    forall k | 0 <= k < |g|
      ensures OnGrid(CellFor(g[k]))
    {
      CellNear(g[k]);
    }
  }

  // ---------- the whole picture ----------

  ghost function DrawnAll(lines: seq<Line>, eps: real, root: real -> real): (ds: seq<Drawn>)
    ensures |ds| == |lines| && forall i :: 0 <= i < |lines| ==> ds[i] == DrawnOf(lines[i], eps, root)
  {
    seq(|lines|, i requires 0 <= i < |lines| => DrawnOf(lines[i], eps, root))
  }

  predicate AllDrawing(lines: seq<Line>) { forall i :: 0 <= i < |lines| ==> Drawing(lines[i]) }

  lemma AllShow(lines: seq<Line>, eps: real, root: real -> real)
    requires AllDrawing(lines) && eps >= 0.0 && IsRoot(root)
    ensures var ds := DrawnAll(lines, eps, root);
      && AllDrawable(ds)
      && forall i :: 0 <= i < |lines| ==> Shows(lines[i], ds[i], eps, root) && (ds[i].p == [] <==> lines[i].p == [])
  {
    hide IsRoot, Drawing, Shows, Drawable, DrawnOf;
    var ds := DrawnAll(lines, eps, root);
    forall i | 0 <= i < |lines|
      ensures Drawable(ds[i]) && Shows(lines[i], ds[i], eps, root) && (ds[i].p == [] <==> lines[i].p == [])
    {
      StrokeShows(lines[i], eps, root);
    }
  }

  /** The text of a picture at a tolerance. */
  ghost function Encoded(lines: seq<Line>, eps: real, root: real -> real): string
    requires AllDrawing(lines) && eps >= 0.0 && IsRoot(root)
  {
    AllShow(lines, eps, root);
    Join(Texts(DrawnAll(lines, eps, root)))
  }

  /** The text is read back, and every stroke with it. */
  ghost predicate Comes(s: string, lines: seq<Line>, eps: real, root: real -> real) {
    && Parsed(s).Some? && |Parsed(s).value| == |lines|
    && forall i :: 0 <= i < |lines| ==> Shows(lines[i], Parsed(s).value[i], eps, root)
  }

  /** What a text of a picture must be to be taken: short enough, and no stroke without a point. */
  predicate Sent(lines: seq<Line>, s: string) {
    0 < |lines| <= MAX_LINES && |s| <= MAX_CHARS && forall i :: 0 <= i < |lines| ==> lines[i].p != []
  }

  /** Within the limits and without empty strokes, and only then, the picture comes. */
  lemma EncodedComes(lines: seq<Line>, eps: real, root: real -> real)
    requires AllDrawing(lines) && eps >= 0.0 && IsRoot(root)
    ensures var s := Encoded(lines, eps, root);
      if Sent(lines, s) then Comes(s, lines, eps, root) else Parsed(s).None?
  {
    hide IsRoot, Drawing, Shows, Drawable, DrawnOf, Parsed, Texts;
    AllShow(lines, eps, root);
    TextRoundTrip(DrawnAll(lines, eps, root));
  }

  /**
    The whole picture. Within the limits and with a point in every stroke, and only then, it is read back: every
    stroke with its colour and width, and every original point within the tolerance and half a cell's diagonal of its
    line.
   */
  method Encode(lines: seq<Line>, eps: real, root: real -> real) returns (s: string)
    requires AllDrawing(lines) && eps >= 0.0 && IsRoot(root)
    ensures s == Encoded(lines, eps, root)
    ensures if Sent(lines, s) then Comes(s, lines, eps, root) else Parsed(s).None?
  {
    hide IsRoot, Drawing, Shows, LineText, Drawable, DrawnOf, Comes, Parsed;
    AllShow(lines, eps, root);
    ghost var texts := Texts(DrawnAll(lines, eps, root));
    var parts: seq<string> := [];
    for i := 0 to |lines|
      invariant |parts| == i && forall k :: 0 <= k < i ==> parts[k] == texts[k]
    {
      var x := EncodeLine(lines[i], eps, root);
      parts := parts + [x];
    }
    assert parts == texts;
    s := Join(parts);
    EncodedComes(lines, eps, root);
  }

  ghost predicate Finest(lines: seq<Line>, fits: string -> bool, j: nat, root: real -> real)
    requires AllDrawing(lines) && IsRoot(root) && j < |EPS|
  {
    fits(Encoded(lines, EPS[j], root)) && forall i :: 0 <= i < j ==> !fits(Encoded(lines, EPS[i], root))
  }

  /** The finest packing that fits: every finer one does not; none when none fits. */
  method Pack(lines: seq<Line>, fits: string -> bool, root: real -> real) returns (s: Option<string>, eps: real)
    requires AllDrawing(lines) && IsRoot(root)
    ensures s.Some? ==> exists j :: 0 <= j < |EPS| && eps == EPS[j] && Finest(lines, fits, j, root)
    ensures s.Some? ==> eps in EPS && s.value == Encoded(lines, eps, root)
    ensures s.Some? ==> if Sent(lines, s.value) then Comes(s.value, lines, eps, root) else Parsed(s.value).None?
    ensures s.None? ==> forall i :: 0 <= i < |EPS| ==> !fits(Encoded(lines, EPS[i], root))
  {
    hide IsRoot, Drawing, Comes, Parsed, Encoded;
    for j := 0 to |EPS|
      invariant forall i :: 0 <= i < j ==> !fits(Encoded(lines, EPS[i], root))
    {
      var x := Encode(lines, EPS[j], root);
      if fits(x) {
        assert Finest(lines, fits, j, root);
        return Some(x), EPS[j];
      }
    }
    s, eps := None, 0.0;
  }
}
