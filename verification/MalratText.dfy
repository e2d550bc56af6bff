/** The text form of a picture: one letter for the pen, two for every cell, dots between the lines. */
module MalratText {
  import opened Options

  const MAX_LINES: nat := 80
  const MAX_CHARS: nat := 600

  datatype Cell = Cell(x: int, y: int)

  /** A line on the grid: colour, width and its cells. */
  datatype Drawn = Drawn(c: nat, w: nat, p: seq<Cell>)

  // ---------- the alphabet of 64 letters ----------

  function Letter(i: int): char
    requires 0 <= i < 64
  {
    if i < 26 then (i + 65) as char
    else if i < 52 then (i - 26 + 97) as char
    else if i < 62 then (i - 52 + 48) as char
    else if i == 62 then '-' else '_'
  }

  function LetterIndex(ch: char): (i: int)
    ensures -1 <= i < 64
    ensures i >= 0 ==> Letter(i) == ch
  {
    if 'A' <= ch <= 'Z' then ch as int - 65
    else if 'a' <= ch <= 'z' then ch as int - 97 + 26
    else if '0' <= ch <= '9' then ch as int - 48 + 52
    else if ch == '-' then 62 else if ch == '_' then 63 else -1
  }

  lemma LetterRoundTrip(i: int)
    requires 0 <= i < 64
    ensures LetterIndex(Letter(i)) == i && Letter(i) != '.'
  {
  }

  // ---------- writing ----------

  predicate OnGrid(c: Cell) { 0 <= c.x < 64 && 0 <= c.y < 64 }

  /** A pen there is, and cells on the grid; a stroke without a point has none. */
  predicate Drawable(d: Drawn) { d.c < 8 && d.w < 3 && forall k :: 0 <= k < |d.p| ==> OnGrid(d.p[k]) }

  function CellsText(p: seq<Cell>): (s: string)
    requires forall k :: 0 <= k < |p| ==> OnGrid(p[k])
    ensures |s| == 2 * |p|
  {
    if p == [] then ""
    else
      var c := p[|p| - 1];
      assert OnGrid(c);
      CellsText(p[..|p| - 1]) + [Letter(c.x), Letter(c.y)]
  }

  function LineText(d: Drawn): string
    requires Drawable(d)
  {
    [Letter(d.c * 3 + d.w)] + CellsText(d.p)
  }

  function Join(parts: seq<string>): string {
    if parts == [] then "" else if |parts| == 1 then parts[0] else Join(parts[..|parts| - 1]) + "." + parts[|parts| - 1]
  }

  predicate AllDrawable(ds: seq<Drawn>) { forall i :: 0 <= i < |ds| ==> Drawable(ds[i]) }

  function Texts(ds: seq<Drawn>): (r: seq<string>)
    requires AllDrawable(ds)
    ensures |r| == |ds| && forall i :: 0 <= i < |ds| ==> r[i] == LineText(ds[i])
  {
    seq(|ds|, i requires 0 <= i < |ds| => LineText(ds[i]))
  }

  // ---------- reading ----------

  /** Cut at every dot. */
  function Split(s: string): (parts: seq<string>)
    ensures parts != []
  {
    if s == "" then [""]
    else
      var parts, ch := Split(s[..|s| - 1]), s[|s| - 1];
      if ch == '.' then parts + [""] else parts[..|parts| - 1] + [parts[|parts| - 1] + [ch]]
  }

  predicate Lettered(x: string) { x != "" && forall k :: 0 <= k < |x| ==> LetterIndex(x[k]) >= 0 }

  function CellsOf(x: string): seq<Cell>
    requires |x| % 2 == 0
  {
    if x == "" then [] else CellsOf(x[..|x| - 2]) + [Cell(LetterIndex(x[|x| - 2]), LetterIndex(x[|x| - 1]))]
  }

  predicate Readable(x: string) { Lettered(x) && |x| >= 3 && |x| % 2 == 1 && LetterIndex(x[0]) < 24 }

  function LineOf(x: string): Drawn
    requires Readable(x)
  {
    var h := LetterIndex(x[0]);
    Drawn(h / 3, h % 3, CellsOf(x[1..]))
  }

  /** The picture a text stands for, if it is one. */
  function Parsed(s: string): Option<seq<Drawn>> {
    var parts := Split(s);
    if s == "" || |s| > MAX_CHARS || |parts| > MAX_LINES
      || !(forall i :: 0 <= i < |parts| ==> Readable(parts[i])) then None
    else Some(seq(|parts|, i requires 0 <= i < |parts| => LineOf(parts[i])))
  }

  /** Reading one line, cell by cell. */
  method DecodeLine(x: string) returns (d: Drawn)
    requires Readable(x)
    ensures d == LineOf(x)
  {
    var h := LetterIndex(x[0]);
    var p: seq<Cell> := [];
    var k := 1;
    while k < |x|
      invariant k % 2 == 1 && 1 <= k <= |x| && p == CellsOf(x[1..k])
    {
      assert x[1..k + 2][..k - 1] == x[1..k];
      p := p + [Cell(LetterIndex(x[k]), LetterIndex(x[k + 1]))];
      k := k + 2;
    }
    assert x[1..|x|] == x[1..];
    d := Drawn(h / 3, h % 3, p);
  }

  method Decode(s: string) returns (r: Option<seq<Drawn>>)
    ensures r == Parsed(s)
  {
    var parts := Split(s);
    hide Split;
    if s == "" || |s| > MAX_CHARS || !(forall i :: 0 <= i < |parts| ==> Lettered(parts[i])) || |parts| > MAX_LINES {
      return None;
    }
    var out: seq<Drawn> := [];
    for i := 0 to |parts|
      invariant |out| == i && forall k :: 0 <= k < i ==> Readable(parts[k]) && out[k] == LineOf(parts[k])
    {
      var x := parts[i];
      if |x| < 3 || |x| % 2 != 1 || LetterIndex(x[0]) >= 24 { return None; }
      var d := DecodeLine(x);
      hide LineOf;
      out := out + [d];
    }
    r := Some(out);
    assert out == seq(|parts|, i requires 0 <= i < |parts| => LineOf(parts[i]));
  }

  // ---------- there and back ----------

  predicate Dotless(x: string) { forall k :: 0 <= k < |x| ==> x[k] != '.' }

  lemma {:induction false} SplitDotless(x: string)
    requires Dotless(x)
    ensures Split(x) == [x]
  {
    if x != "" {
      SplitDotless(x[..|x| - 1]);
      assert x == x[..|x| - 1] + [x[|x| - 1]];
    }
  }

  lemma {:induction false} SplitAfterDot(s: string, x: string)
    requires Dotless(x)
    ensures Split(s + "." + x) == Split(s) + [x]
    decreases |x|
  {
    var all := s + "." + x;
    if x == "" {
      assert all[..|all| - 1] == s;
    } else {
      var most, ch := x[..|x| - 1], x[|x| - 1];
      SplitAfterDot(s, most);
      assert all[..|all| - 1] == s + "." + most;
      assert x == most + [ch];
    }
  }

  lemma {:induction false} SplitJoin(parts: seq<string>)
    requires parts != [] && forall i :: 0 <= i < |parts| ==> Dotless(parts[i])
    ensures Split(Join(parts)) == parts
  {
    hide Dotless, Split;
    if |parts| == 1 {
      SplitDotless(parts[0]);
    } else {
      var most := parts[..|parts| - 1];
      SplitJoin(most);
      SplitAfterDot(Join(most), parts[|parts| - 1]);
    }
  }

  lemma {:induction false} CellsRoundTrip(p: seq<Cell>)
    requires forall k :: 0 <= k < |p| ==> OnGrid(p[k])
    ensures CellsOf(CellsText(p)) == p
    ensures forall k :: 0 <= k < |CellsText(p)| ==> LetterIndex(CellsText(p)[k]) >= 0 && CellsText(p)[k] != '.'
  {
    hide Letter, LetterIndex;
    if p != [] {
      var n := |p| - 1;
      CellsRoundTrip(p[..n]);
      var t, c := CellsText(p[..n]), p[n];
      LetterRoundTrip(c.x);
      LetterRoundTrip(c.y);
      assert OnGrid(c);
      assert CellsText(p) == t + [Letter(c.x), Letter(c.y)];
      assert CellsText(p)[..2 * n] == t;
    }
  }

  /** One line comes back with its colour, its width and its cells; the text of a line without cells is not a line. */
  lemma LineRoundTrip(d: Drawn)
    requires Drawable(d)
    ensures Dotless(LineText(d)) && LineText(d) != "" && (Readable(LineText(d)) <==> d.p != [])
    ensures d.p != [] ==> LineOf(LineText(d)) == d
  {
    hide Readable, LineOf, Dotless, LineText, Drawable;
    ReadableLine(d);
    if d.p != [] { SameLine(d); }
  }

  lemma ReadableLine(d: Drawn)
    requires Drawable(d)
    ensures Dotless(LineText(d)) && LineText(d) != "" && (Readable(LineText(d)) <==> d.p != [])
  {
    hide Letter, LetterIndex, CellsOf, CellsText, LineText, Lettered, Dotless;
    LineParts(d);
    LetterRoundTrip(d.c * 3 + d.w);
    CellsRoundTrip(d.p);
    hide OnGrid;
    AllLettered(LineText(d), CellsText(d.p));
  }

  lemma SameLine(d: Drawn)
    requires Drawable(d) && Readable(LineText(d))
    ensures LineOf(LineText(d)) == d
  {
    hide Letter, LetterIndex, CellsOf, CellsText, LineText, Lettered;
    LineParts(d);
    LetterRoundTrip(d.c * 3 + d.w);
    CellsRoundTrip(d.p);
    hide OnGrid;
    PenParts(d.c, d.w);
  }

  lemma LineParts(d: Drawn)
    requires Drawable(d)
    ensures d.c * 3 + d.w < 24
    ensures var x := LineText(d); |x| == 1 + 2 * |d.p| && x[0] == Letter(d.c * 3 + d.w) && x[1..] == CellsText(d.p)
  {
    hide Letter, CellsText;
    var t := CellsText(d.p);
    CellsLength(d.p);
    assert ([Letter(d.c * 3 + d.w)] + t)[1..] == t;
  }

  lemma CellsLength(p: seq<Cell>)
    requires forall k :: 0 <= k < |p| ==> OnGrid(p[k])
    ensures |CellsText(p)| == 2 * |p|
  {
  }

  lemma PenParts(c: nat, w: nat)
    requires w < 3
    ensures (c * 3 + w) / 3 == c && (c * 3 + w) % 3 == w
  {
  }

  lemma AllLettered(x: string, t: string)
    requires x != "" && x[1..] == t && LetterIndex(x[0]) >= 0 && x[0] != '.'
    requires forall k :: 0 <= k < |t| ==> LetterIndex(t[k]) >= 0 && t[k] != '.'
    ensures Lettered(x) && Dotless(x)
  {
    hide LetterIndex;
    forall k | 0 <= k < |x| ensures LetterIndex(x[k]) >= 0 && x[k] != '.' {
      if k > 0 { assert x[k] == t[k - 1]; }
    }
  }

  /** Within the limits, and every line with a cell at least. */
  predicate Sendable(ds: seq<Drawn>)
    requires AllDrawable(ds)
  {
    0 < |ds| <= MAX_LINES && |Join(Texts(ds))| <= MAX_CHARS && forall i :: 0 <= i < |ds| ==> ds[i].p != []
  }

  /** A picture is read back exactly as it was written, exactly when it is within the limits and no line is empty. */
  lemma TextRoundTrip(ds: seq<Drawn>)
    requires AllDrawable(ds)
    ensures Parsed(Join(Texts(ds))) == if Sendable(ds) then Some(ds) else None
  {
    hide LineText, LineOf, Readable, Split, Dotless, Drawable;
    var parts := Texts(ds);
    forall i | 0 <= i < |ds|
      ensures Dotless(parts[i]) && (Readable(parts[i]) <==> ds[i].p != [])
      ensures (ds[i].p != [] ==> LineOf(parts[i]) == ds[i])
    {
      LineRoundTrip(ds[i]);
    }
    if ds != [] {
      SplitJoin(parts);
      LineRoundTrip(ds[|ds| - 1]);
      JoinNotEmpty(parts);
      if Sendable(ds) { assert seq(|parts|, i requires 0 <= i < |parts| => LineOf(parts[i])) == ds; }
    }
  }

  lemma JoinNotEmpty(parts: seq<string>)
    requires parts != [] && parts[|parts| - 1] != ""
    ensures Join(parts) != ""
  {
    if |parts| > 1 { assert |Join(parts)| >= |parts[|parts| - 1]|; }
  }
}
