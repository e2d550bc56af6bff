/** Drawn strokes: leaving out the points that hardly matter. */
module MalratSimplify {
  import opened Reals

  datatype Pt = Pt(x: real, y: real)

  function Norm(x: real, y: real, root: real -> real): real { root(Sq(x) + Sq(y)) }

  /** The place on the segment a-b, t of the way along. */
  function Between(a: Pt, b: Pt, t: real): Pt { Pt(a.x + Part(t, b.x - a.x), a.y + Part(t, b.y - a.y)) }

  /** How far along a-b the place nearest to p lies, from 0 to 1. */
  function Foot(p: Pt, a: Pt, b: Pt): (t: real)
    ensures 0.0 <= t <= 1.0
  {
    var dx, dy := b.x - a.x, b.y - a.y;
    var l := Sq(dx) + Sq(dy);
    var t := if l != 0.0 then Along(p.x - a.x, p.y - a.y, dx, dy) / l else 0.0;
    if t > 1.0 then 1.0 else if t < 0.0 then 0.0 else t
  }

  /** The distance of p from the segment a-b. */
  function Off(p: Pt, a: Pt, b: Pt, root: real -> real): real {
    var q := Between(a, b, Foot(p, a, b));
    Norm(q.x - p.x, q.y - p.y, root)
  }

  // ---------- what simplifying leaves, span by span ----------

  /** The first of the points farthest from the segment l-r, among those between l and i; -1 when there is none. */
  function FarAt(pts: seq<Pt>, l: int, r: int, i: int, root: real -> real): (at: int)
    requires 0 <= l < i <= r < |pts|
    ensures if i == l + 1 then at == -1 else l < at < i
    ensures forall k :: l < k < i ==> at >= 0 && Off(pts[k], pts[l], pts[r], root) <= Off(pts[at], pts[l], pts[r], root)
    decreases i
  {
    if i == l + 1 then -1
    else
      hide Off;
      var at := FarAt(pts, l, r, i - 1, root);
      if at < 0 || Off(pts[i - 1], pts[l], pts[r], root) > Off(pts[at], pts[l], pts[r], root) then i - 1 else at
  }

  /** Where a span is split: at its farthest point, if that is off by more than eps. */
  function SplitAt(pts: seq<Pt>, l: int, r: int, eps: real, root: real -> real): (at: int)
    requires 0 <= l < r < |pts|
    ensures at == -1 || l < at < r
    ensures at == -1 ==> Close(pts, l, r, eps, root)
  {
    hide Off;
    var at := FarAt(pts, l, r, r, root);
    if at >= 0 && Off(pts[at], pts[l], pts[r], root) > eps then at else -1
  }

  /** The points kept from l up to r, r itself not among them: the textbook recursion. */
  ghost function Picked(pts: seq<Pt>, l: int, r: int, eps: real, root: real -> real): (idx: seq<int>)
    requires 0 <= l < r < |pts|
    ensures idx != [] && idx[0] == l && l in idx
    decreases r - l
  {
    var at := SplitAt(pts, l, r, eps, root);
    if at < 0 then [l] else Picked(pts, l, at, eps, root) + Picked(pts, at, r, eps, root)
  }

  ghost function Kept(pts: seq<Pt>, eps: real, root: real -> real): seq<int> {
    if |pts| < 3 then seq(|pts|, i => i) else Picked(pts, 0, |pts| - 1, eps, root) + [|pts| - 1]
  }

  /** Everything left out between two points lies close to the segment. */
  predicate Close(pts: seq<Pt>, l: int, r: int, eps: real, root: real -> real)
    requires 0 <= l < r < |pts|
  {
    forall i :: l < i < r ==> Off(pts[i], pts[l], pts[r], root) <= eps
  }

  /** A choice of indices with both ends, in order, and everything in between close to the segment it lies over. */
  ghost predicate Chosen(pts: seq<Pt>, idx: seq<int>, eps: real, root: real -> real) {
    && (pts != [] ==> idx != [] && idx[0] == 0 && idx[|idx| - 1] == |pts| - 1)
    && Chain(pts, idx, eps, root)
  }

  ghost predicate Chain(pts: seq<Pt>, idx: seq<int>, eps: real, root: real -> real) {
    && (forall k :: 0 <= k < |idx| ==> 0 <= idx[k] < |pts|)
    && (forall k :: 0 <= k < |idx| - 1 ==> idx[k] < idx[k + 1] && Close(pts, idx[k], idx[k + 1], eps, root))
  }

  lemma ChainJoin(pts: seq<Pt>, a: seq<int>, b: seq<int>, eps: real, root: real -> real)
    requires b != [] && Chain(pts, a + [b[0]], eps, root) && Chain(pts, b, eps, root)
    ensures Chain(pts, a + b, eps, root)
  {
    hide Close;
    var c, d := a + b, a + [b[0]];
    forall k | 0 <= k < |c|
      ensures 0 <= c[k] < |pts|
    {
      if k < |a| { assert c[k] == d[k]; } else { assert c[k] == b[k - |a|]; }
    }
    forall k | 0 <= k < |c| - 1
      ensures c[k] < c[k + 1] && Close(pts, c[k], c[k + 1], eps, root)
    {
      if k < |a| {
        assert c[k] == d[k] && c[k + 1] == d[k + 1];
      } else {
        assert c[k] == b[k - |a|] && c[k + 1] == b[k - |a| + 1];
      }
    }
  }

  lemma {:induction false} PickedChain(pts: seq<Pt>, l: int, r: int, eps: real, root: real -> real)
    requires 0 <= l < r < |pts|
    ensures Chain(pts, Picked(pts, l, r, eps, root) + [r], eps, root)
    decreases r - l
  {
    hide Close, Chain;
    var at := SplitAt(pts, l, r, eps, root);
    if at < 0 {
      OneSpan(pts, l, r, eps, root);
    } else {
      PickedChain(pts, l, at, eps, root);
      PickedChain(pts, at, r, eps, root);
      var a, b := Picked(pts, l, at, eps, root), Picked(pts, at, r, eps, root);
      ChainJoin(pts, a, b + [r], eps, root);
      assert a + b + [r] == a + (b + [r]);
    }
  }

  lemma OneSpan(pts: seq<Pt>, l: int, r: int, eps: real, root: real -> real)
    requires 0 <= l < r < |pts| && Close(pts, l, r, eps, root)
    ensures Chain(pts, [l] + [r], eps, root)
  {
    hide Close;
  }

  /** What is left out lies within eps of the line through what is kept; both ends stay. */
  lemma KeptChosen(pts: seq<Pt>, eps: real, root: real -> real)
    ensures Chosen(pts, Kept(pts, eps, root), eps, root)
  {
    if |pts| >= 3 {
      hide Chain, Close;
      PickedChain(pts, 0, |pts| - 1, eps, root);
    }
  }

  // ---------- the same from a list of spans still to do ----------

  datatype Span = Span(l: int, r: int)

  /** The farthest point between two others, -1 when there is none. */
  method Farthest(pts: seq<Pt>, l: int, r: int, root: real -> real) returns (far: real, at: int)
    requires 0 <= l < r < |pts| && IsRoot(root)
    ensures at == FarAt(pts, l, r, r, root)
    ensures far == if at < 0 then -1.0 else Off(pts[at], pts[l], pts[r], root)
  {
    hide Off, IsRoot;
    far, at := -1.0, -1;
    for i := l + 1 to r
      invariant at == FarAt(pts, l, r, i, root)
      invariant far == if at < 0 then -1.0 else Off(pts[at], pts[l], pts[r], root)
    {
      var d := Off(pts[i], pts[l], pts[r], root);
      OffNotNegative(pts[i], pts[l], pts[r], root);
      if d > far { far, at := d, i; }
    }
  }

  lemma OffNotNegative(p: Pt, a: Pt, b: Pt, root: real -> real)
    requires IsRoot(root)
    ensures Off(p, a, b, root) >= 0.0
  {
    var q := Between(a, b, Foot(p, a, b));
    Positive(q.x - p.x);
    Positive(q.y - p.y);
    hide Sq, Between, Foot;
  }

  /** Spans still to do: within the picture, their ends kept. */
  predicate TodoOk(keep: seq<bool>, todo: seq<Span>) {
    forall k :: 0 <= k < |todo| ==> SpanOk(keep, todo[k])
  }

  predicate SpanOk(keep: seq<bool>, s: Span) { 0 <= s.l < s.r < |keep| && keep[s.l] && keep[s.r] }

  /** Point i is kept already, or will be by a span still to do. */
  ghost predicate Coming(pts: seq<Pt>, keep: seq<bool>, todo: seq<Span>, i: int, eps: real, root: real -> real)
    requires |keep| == |pts| && TodoOk(keep, todo) && 0 <= i < |pts|
  {
    keep[i] || exists k :: 0 <= k < |todo| && i in Picked(pts, todo[k].l, todo[k].r, eps, root)
  }

  /** Kept and still to come make up what the recursion keeps. */
  ghost predicate OnTheWay(pts: seq<Pt>, keep: seq<bool>, todo: seq<Span>, eps: real, root: real -> real)
    requires |keep| == |pts| && TodoOk(keep, todo)
  {
    forall i :: 0 <= i < |pts| ==> (Coming(pts, keep, todo, i, eps, root) <==> i in Kept(pts, eps, root))
  }

  function Work(todo: seq<Span>): int {
    if todo == [] then 0 else Work(todo[..|todo| - 1]) + 2 * (todo[|todo| - 1].r - todo[|todo| - 1].l) - 1
  }

  lemma {:induction false} WorkLeft(keep: seq<bool>, todo: seq<Span>)
    requires TodoOk(keep, todo)
    ensures Work(todo) >= |todo|
  {
    hide SpanOk;
    if todo != [] {
      WorkLeft(keep, todo[..|todo| - 1]);
      Wide(keep, todo[|todo| - 1]);
    }
  }

  lemma Wide(keep: seq<bool>, s: Span)
    requires SpanOk(keep, s)
    ensures 0 <= s.l < s.r < |keep|
  {
  }

  lemma WorkSnoc(todo: seq<Span>, s: Span)
    ensures Work(todo + [s]) == Work(todo) + 2 * (s.r - s.l) - 1
  {
    assert (todo + [s])[..|todo|] == todo;
  }

  /** A span that is not split keeps its first point, which stays anyway. */
  lemma DoneSpan(pts: seq<Pt>, keep: seq<bool>, todo: seq<Span>, s: Span, eps: real, root: real -> real)
    requires |keep| == |pts| && TodoOk(keep, todo + [s]) && OnTheWay(pts, keep, todo + [s], eps, root)
    requires 0 <= s.l < s.r < |pts| && SplitAt(pts, s.l, s.r, eps, root) < 0
    ensures TodoOk(keep, todo) && OnTheWay(pts, keep, todo, eps, root)
  {
    hide SplitAt, Kept;
    var all := todo + [s];
    assert all[|todo|] == s;
    assert forall k :: 0 <= k < |todo| ==> all[k] == todo[k];
    forall i | 0 <= i < |pts|
      ensures Coming(pts, keep, todo, i, eps, root) <==> Coming(pts, keep, all, i, eps, root)
    {
      assert Picked(pts, s.l, s.r, eps, root) == [s.l];
    }
  }

  /** A span that is split gives way to its two parts. */
  lemma SplitSpan(pts: seq<Pt>, keep: seq<bool>, todo: seq<Span>, s: Span, eps: real, root: real -> real)
    requires |keep| == |pts| && TodoOk(keep, todo + [s]) && OnTheWay(pts, keep, todo + [s], eps, root)
    requires 0 <= s.l < s.r < |pts| && SplitAt(pts, s.l, s.r, eps, root) >= 0
    ensures var at := SplitAt(pts, s.l, s.r, eps, root);
      var keep', todo' := keep[at := true], todo + [Span(s.l, at), Span(at, s.r)];
      TodoOk(keep', todo') && OnTheWay(pts, keep', todo', eps, root)
  {
    hide Kept, Close;
    var at := SplitAt(pts, s.l, s.r, eps, root);
    var all, keep', todo' := todo + [s], keep[at := true], todo + [Span(s.l, at), Span(at, s.r)];
    assert all[|todo|] == s && todo'[|todo|] == Span(s.l, at) && todo'[|todo| + 1] == Span(at, s.r);
    assert forall k :: 0 <= k < |todo| ==> all[k] == todo[k] == todo'[k];
    forall i | 0 <= i < |pts|
      ensures Coming(pts, keep', todo', i, eps, root) <==> Coming(pts, keep, all, i, eps, root)
    {
      SamePoints(pts, keep, todo, s, at, i, eps, root);
    }
  }

  lemma SamePoints(pts: seq<Pt>, keep: seq<bool>, todo: seq<Span>, s: Span, at: int, i: int, eps: real,
      root: real -> real)
    requires |keep| == |pts| && TodoOk(keep, todo + [s]) && 0 <= s.l < s.r < |pts| && 0 <= i < |pts|
    requires at == SplitAt(pts, s.l, s.r, eps, root) && at >= 0
    requires TodoOk(keep[at := true], todo + [Span(s.l, at), Span(at, s.r)])
    ensures Coming(pts, keep[at := true], todo + [Span(s.l, at), Span(at, s.r)], i, eps, root)
      <==> Coming(pts, keep, todo + [s], i, eps, root)
  {
    hide Close, SplitAt;
    var all, keep', todo' := todo + [s], keep[at := true], todo + [Span(s.l, at), Span(at, s.r)];
    assert Picked(pts, s.l, s.r, eps, root) == Picked(pts, s.l, at, eps, root) + Picked(pts, at, s.r, eps, root);
    hide Picked;
    assert at in Picked(pts, s.l, s.r, eps, root);
    assert all[|todo|] == s && todo'[|todo|] == Span(s.l, at) && todo'[|todo| + 1] == Span(at, s.r);
    assert forall k :: 0 <= k < |todo| ==> all[k] == todo[k] == todo'[k];
  }

  /** Which points stay, from a list of spans: just those of the recursion, in whatever order the spans are done. */
  method Keep(pts: seq<Pt>, eps: real, root: real -> real) returns (keep: array<bool>)
    requires |pts| >= 3 && eps >= 0.0 && IsRoot(root)
    ensures fresh(keep) && keep.Length == |pts|
    ensures forall i :: 0 <= i < |pts| ==> (keep[i] <==> i in Kept(pts, eps, root))
  {
    hide Off, IsRoot, Kept, OnTheWay, SplitAt, Work, SpanOk;
    keep := new bool[|pts|](i => i == 0 || i == |pts| - 1);
    var todo := [Span(0, |pts| - 1)];
    EndsOnly(pts, keep[..], eps, root);
    while todo != []
      invariant TodoOk(keep[..], todo) && OnTheWay(pts, keep[..], todo, eps, root)
      decreases Work(todo)
    {
      WorkLeft(keep[..], todo);
      var s, rest := todo[|todo| - 1], todo[..|todo| - 1];
      assert todo == rest + [s];
      Wide(keep[..], s);
      WorkSnoc(rest, s);
      var far, at := Farthest(pts, s.l, s.r, root);
      Decides(pts, s, far, at, eps, root);
      if far > eps {
        SplitSpan(pts, keep[..], rest, s, eps, root);
        WorkSplit(rest, s, at);
        ghost var was := keep[..];
        keep[at] := true;
        assert keep[..] == was[at := true];
        todo := rest + [Span(s.l, at), Span(at, s.r)];
      } else {
        DoneSpan(pts, keep[..], rest, s, eps, root);
        todo := rest;
      }
    }
    AllDone(pts, keep[..], eps, root);
  }

  lemma Decides(pts: seq<Pt>, s: Span, far: real, at: int, eps: real, root: real -> real)
    requires 0 <= s.l < s.r < |pts| && eps >= 0.0 && at == FarAt(pts, s.l, s.r, s.r, root)
    requires far == if at < 0 then -1.0 else Off(pts[at], pts[s.l], pts[s.r], root)
    ensures SplitAt(pts, s.l, s.r, eps, root) == if far > eps then at else -1
    ensures far > eps ==> s.l < at < s.r
  {
    hide Off;
  }

  lemma WorkSplit(rest: seq<Span>, s: Span, at: int)
    ensures Work(rest + [Span(s.l, at), Span(at, s.r)]) < Work(rest + [s])
  {
    hide Work;
    WorkSnoc(rest, s);
    WorkSnoc(rest, Span(s.l, at));
    WorkSnoc(rest + [Span(s.l, at)], Span(at, s.r));
    assert rest + [Span(s.l, at)] + [Span(at, s.r)] == rest + [Span(s.l, at), Span(at, s.r)];
  }

  lemma EndsOnly(pts: seq<Pt>, keep: seq<bool>, eps: real, root: real -> real)
    requires |keep| == |pts| >= 3 && forall i :: 0 <= i < |keep| ==> keep[i] == (i == 0 || i == |pts| - 1)
    ensures TodoOk(keep, [Span(0, |pts| - 1)]) && OnTheWay(pts, keep, [Span(0, |pts| - 1)], eps, root)
  {
    hide Picked;
    var todo := [Span(0, |pts| - 1)];
    assert todo[0] == Span(0, |pts| - 1);
  }

  lemma AllDone(pts: seq<Pt>, keep: seq<bool>, eps: real, root: real -> real)
    requires |keep| == |pts| && TodoOk(keep, []) && OnTheWay(pts, keep, [], eps, root)
    ensures forall i :: 0 <= i < |pts| ==> (keep[i] <==> i in Kept(pts, eps, root))
  {
    hide Kept;
    assert forall i :: 0 <= i < |pts| ==> (Coming(pts, keep, [], i, eps, root) <==> keep[i]);
  }

  /** out is the points at these indices. */
  ghost predicate Picks(pts: seq<Pt>, idx: seq<int>, out: seq<Pt>) {
    |out| == |idx| && forall k :: 0 <= k < |idx| ==> 0 <= idx[k] < |pts| && out[k] == pts[idx[k]]
  }

  predicate Rising(idx: seq<int>) { forall j, k :: 0 <= j < k < |idx| ==> idx[j] < idx[k] }

  lemma {:induction false} ChainRises(pts: seq<Pt>, idx: seq<int>, eps: real, root: real -> real)
    requires Chain(pts, idx, eps, root)
    ensures Rising(idx)
    decreases |idx|
  {
    hide Close;
    if |idx| > 1 {
      ChainRises(pts, idx[..|idx| - 1], eps, root);
      assert idx[..|idx| - 1][|idx| - 2] == idx[|idx| - 2];
    }
  }

  /** Rising numbers are known by which they are. */
  lemma {:induction false} OneRising(a: seq<int>, b: seq<int>)
    requires Rising(a) && Rising(b) && forall x :: x in a <==> x in b
    ensures a == b
    decreases |a|
  {
    if b != [] { assert b[0] in b; }
    if a != [] {
      assert a[0] in a;
      var a', b', x, z := a[..|a| - 1], b[..|b| - 1], a[|a| - 1], b[|b| - 1];
      assert a == a' + [x] && b == b' + [z];
      SameLast(a', x, b', z);
      OneRising(a', b');
    }
  }

  lemma SameLast(a: seq<int>, x: int, b: seq<int>, z: int)
    requires Rising(a + [x]) && Rising(b + [z]) && forall y :: y in a + [x] <==> y in b + [z]
    ensures x == z && forall y :: y in a <==> y in b
  {
    LastIsMost(a, x);
    LastIsMost(b, z);
    assert x in b + [z] && z in a + [x];
  }

  lemma LastIsMost(a: seq<int>, x: int)
    requires Rising(a + [x])
    ensures x in a + [x] && forall y :: y in a ==> y < x && y in a + [x]
  {
    forall y | y in a
      ensures y < x && y in a + [x]
    {
      var i :| 0 <= i < |a| && a[i] == y;
      assert (a + [x])[i] == y && (a + [x])[|a|] == x;
    }
  }

  /** Listing what is kept from the first to the last gives the recursion's list. */
  lemma Listed(pts: seq<Pt>, idx: seq<int>, eps: real, root: real -> real)
    requires Rising(idx) && forall k :: 0 <= k < |idx| ==> 0 <= idx[k] < |pts|
    requires forall k :: 0 <= k < |pts| ==> (k in idx <==> k in Kept(pts, eps, root))
    ensures idx == Kept(pts, eps, root)
  {
    hide Kept, Close, Rising;
    var kept := Kept(pts, eps, root);
    KeptChosen(pts, eps, root);
    ChainRises(pts, kept, eps, root);
    forall x
      ensures x in idx <==> x in kept
    {
      assert x in kept ==> 0 <= x < |pts|;
    }
    OneRising(idx, kept);
  }

  method Simplify(pts: seq<Pt>, eps: real, root: real -> real) returns (out: seq<Pt>)
    requires eps >= 0.0 && IsRoot(root)
    ensures Picks(pts, Kept(pts, eps, root), out)
  {
    hide IsRoot, Rising;
    if |pts| < 3 { return pts; }
    hide Kept, Picks;
    var keep := Keep(pts, eps, root);
    ghost var idx;
    out, idx := Marked(pts, keep);
    Listed(pts, idx, eps, root);
  }

  /** The marked points, in order. */
  method Marked(pts: seq<Pt>, keep: array<bool>) returns (out: seq<Pt>, ghost idx: seq<int>)
    requires keep.Length == |pts|
    ensures Picks(pts, idx, out) && Rising(idx) && forall k :: 0 <= k < |idx| ==> 0 <= idx[k] < |pts|
    ensures forall k :: 0 <= k < |pts| ==> (keep[k] <==> k in idx)
  {
    out, idx := [], [];
    for i := 0 to |pts|
      invariant Picks(pts, idx, out) && Rising(idx)
      invariant forall k :: 0 <= k < |idx| ==> 0 <= idx[k] < i
      invariant forall k :: 0 <= k < i ==> (keep[k] <==> k in idx)
    {
      if keep[i] { out, idx := out + [pts[i]], idx + [i]; }
    }
  }
}
