/**
  Puck-Duell, Stangen-Kick and Flipper-Duell on two phones: whoever owns the ball decides, and there is always exactly
  one who does.
 */
module BallToken {
  import opened Options
  import opened Discs
  import opened Reals
  import opened BallPhysics

  datatype Msg = Pt | Serve(n: nat, b: Ball) | Give(n: nat) | Pass(b: Ball) | Stroke(b: Ball) | St(b: Ball)

  /** One phone: own says that this phone decides, pending that its serve is still to come. */
  datatype Side = Side(own: bool, ball: Option<Ball>, held: bool, pending: bool, n: nat, given: nat, taken: nat,
      over: bool, rejected: nat)

  datatype Res = Res(s: Side, out: seq<Msg>)

  /** The game, and where serve number n lies, from the shared seed. */
  datatype Setup = Setup(g: Game, spot: nat -> Ball)

  predicate SpotOk(g: Game, b: Ball) {
    && b.num
    && match g
       case Puck => 340.0 <= b.x <= 660.0 && b.y == 1056.0 && -80.0 <= b.vx <= 80.0 && b.vy == 30.0
       case Kick => 380.0 <= b.x <= 620.0 && b.y == 896.0 && -40.0 <= b.vx <= 40.0 && b.vy == 60.0
       case Flipper => b.x == W / 2.0 && b.y == H / 2.0 && Sq(b.vx) + Sq(b.vy) == Sq(700.0)
  }

  ghost predicate SpotsOk(G: Setup) { forall n :: SpotOk(G.g, G.spot(n)) }

  function Start(serving: bool): Side { Side(false, None, false, serving, 0, 0, 0, false, 0) }

  function WinOf(G: Setup): nat { TableOf(G.g).win }

  function Check(G: Setup, s: Side): Side {
    if s.given >= WinOf(G) || s.taken >= WinOf(G) then s.(over := true, pending := false) else s
  }

  // ---------- the owner ----------

  function Serves(s: Side, G: Setup): Res {
    Res(s.(ball := Some(G.spot(s.n)), own := true, held := false, pending := false, n := s.n + 1),
      [Serve(s.n, Mirror(G.spot(s.n)))])
  }

  function Concedes(G: Setup, s: Side): Res {
    var s1 := Check(G, s.(ball := None, taken := s.taken + 1));
    Res(s1.(pending := !s1.over), [Pt])
  }

  function Gives(s: Side, G: Setup): Res {
    Res(s.(ball := Some(Mirror(G.spot(s.n))), own := false, held := false, n := s.n + 1), [Give(s.n)])
  }

  /**
    What a substep found: the figures, the time and friction, whether a stroke is told, whether the ball was held too
    long.
   */
  datatype Sub = Sub(fs: Figures, d: real, f: real, tells: bool, late: bool)

  /** A substep with the own ball. */
  function OwnSubstep(s: Side, u: Sub, G: Setup, root: real -> real): Res
    requires s.ball.Some? && FiguresOk(G.g, u.fs)
  {
    var b := Substep(G.g, s.ball.value, u.fs, u.d, u.f, root);
    var told := if u.tells then [Stroke(Mirror(b))] else [];
    if b.y > H + TableOf(G.g).r then var r := Concedes(G, s.(ball := Some(b))); Res(r.s, told + r.out)
    else if b.y < H / 2.0 && b.num && b.vy < 0.0 then Res(s.(ball := Some(b), own := false), told + [Pass(Mirror(b))])
    else if u.late then var r := Gives(s, G); Res(r.s, told + r.out)
    else Res(s.(ball := Some(b)), told)
  }

  /** A substep while the other phone owns the ball: it is only flown along, up to the middle. */
  function OtherSubstep(G: Setup, s: Side, u: Sub): Side
    requires s.ball.Some?
  {
    if s.held then s
    else
      var p := AtWalls(G.g, Glided(s.ball.value, u.d, u.f));
      if p.y >= H / 2.0 && p.vy > 0.0 then s.(ball := Some(p.(y := H / 2.0)), held := true) else s.(ball := Some(p))
  }

  predicate Near(v: real, w: real) { Abs(v - w) < 0.5 }
  /** The ball received, a, is where it should be. */
  predicate SameBall(a: Ball, b: Ball) {
    a.num && Near(a.x, b.x) && Near(a.y, b.y) && Near(a.vx, b.vx) && Near(a.vy, b.vy)
  }

  /** near is what this phone believes about the other figures. */
  function Receive(s: Side, m: Msg, near: bool, G: Setup, root: real -> real): Side {
    if s.over then s
    else match m
      case Pt => Check(G, s.(ball := None, own := false, given := s.given + 1))
      case Serve(n, b) =>
        if !SameBall(b, Mirror(G.spot(n))) then s.(rejected := s.rejected + 1)
        else s.(ball := Some(b), own := false, held := false, n := n + 1)
      case Give(n) => if s.own then s else s.(ball := Some(G.spot(n)), own := true, held := false, n := n + 1)
      case Pass(b) =>
        if s.own then s
        else if !PlausiblePass(G.g, b, root) then s.(rejected := s.rejected + 1)
        else s.(ball := Some(b), own := true, held := false)
      case Stroke(b) =>
        if s.own then s
        else if !PlausibleReport(G.g, b, near, root) then s.(rejected := s.rejected + 1)
        else s.(ball := Some(b), held := false)
      case St(b) =>
        if s.own then s
        else if !PlausibleReport(G.g, b, true, root) then s.(rejected := s.rejected + 1)
        else s.(ball := Some(b), held := false)
  }

  // ---------- two phones, two ordered channels ----------

  datatype World = World(a: Side, b: Side, toA: seq<Msg>, toB: seq<Msg>)

  datatype Move = ServeTime(first: bool) | Steps(first: bool, u: Sub) | Tells(first: bool) | Arrives(first: bool,
      near: bool)

  predicate Possible1(G: Setup, w: World, m: Move, root: real -> real) {
    match m
    case ServeTime(_) => w.a.pending && !w.a.over
    case Steps(_, u) => !w.a.over && w.a.ball.Some? && FiguresOk(G.g, u.fs) && StepOk(G.g, u.d, u.f)
    case Tells(_) => w.a.own && w.a.ball.Some?
    case Arrives(_, _) => w.toA != []
  }

  function Swapped(w: World): World { World(w.b, w.a, w.toB, w.toA) }

  function FirstMoves(w: World, m: Move, G: Setup, root: real -> real): World
    requires Possible1(G, w, m, root)
  {
    match m
    case ServeTime(_) => var r := Serves(w.a, G); w.(a := r.s, toB := w.toB + r.out)
    case Steps(_, u) =>
      if w.a.own then var r := OwnSubstep(w.a, u, G, root); w.(a := r.s, toB := w.toB + r.out)
        else w.(a := OtherSubstep(G, w.a, u))
    case Tells(_) => w.(toB := w.toB + [St(Mirror(w.a.ball.value))])
    case Arrives(_, near) => w.(a := Receive(w.a, w.toA[0], near, G, root), toA := w.toA[1..])
  }

  predicate Possible(G: Setup, w: World, m: Move, root: real -> real) {
    Possible1(G, if m.first then w else Swapped(w), m, root)
  }

  function Moved(w: World, m: Move, G: Setup, root: real -> real): World
    requires Possible(G, w, m, root)
  {
    if m.first then FirstMoves(w, m, G, root) else Swapped(FirstMoves(Swapped(w), m, G, root))
  }

  // ---------- the token ----------

  /** Has the ball, or the serve that will bring it. */
  predicate HasBall(s: Side) { !s.over && s.own && s.ball.Some? }
  predicate HasServe(s: Side) { !s.over && s.pending }
  predicate IsToken(m: Msg) { m.Pass? || m.Give? }

  function Tokens(ms: seq<Msg>): nat {
    if ms == [] then 0 else Tokens(ms[..|ms| - 1]) + if IsToken(ms[|ms| - 1]) then 1 else 0
  }
  function Points(ms: seq<Msg>): nat {
    if ms == [] then 0 else Points(ms[..|ms| - 1]) + if ms[|ms| - 1] == Pt then 1 else 0
  }

  function Count(b: bool): nat { if b then 1 else 0 }

  /** How many tokens there are in all. */
  function TokenCount(w: World): nat {
    Count(HasBall(w.a)) + Count(HasServe(w.a)) + Count(HasBall(w.b)) + Count(HasServe(w.b)) + Tokens(w.toA)
      + Tokens(w.toB)
  }

  // ---------- the invariant ----------

  predicate Holder(G: Setup, s: Side) {
    && !s.over
    && if s.pending then s.ball.None? else s.own && s.ball.Some? && InPlay(G.g, s.ball.value)
  }

  /** Without the token; the ball it flies along always has a speed. */
  predicate Waiter(s: Side) { !s.own && !s.pending && (s.ball.Some? ==> s.ball.value.num) }

  predicate NoToken(ms: seq<Msg>) { forall i :: 0 <= i < |ms| ==> !IsToken(ms[i]) }

  /** Every message is one an honest phone sends. */
  predicate HonestMsg(m: Msg, G: Setup, root: real -> real) {
    match m
    case Serve(n, b) => b == Mirror(G.spot(n))
    case Pass(b) => PlausiblePass(G.g, b, root) && InPlay(G.g, b)
    case St(b) => PlausibleReport(G.g, b, true, root) <==> b.num
    case _ => true
  }

  predicate HonestMsgs(ms: seq<Msg>, G: Setup, root: real -> real) {
    forall i :: 0 <= i < |ms| ==> HonestMsg(ms[i], G, root)
  }

  /** s holds the token: nothing is on its way to it, and no token to t. */
  predicate Held(G: Setup, s: Side, t: Side, toS: seq<Msg>, toT: seq<Msg>) {
    Holder(G, s) && Waiter(t) && !t.over && toS == [] && NoToken(toT) && s.taken < WinOf(G) && t.taken < WinOf(G)
  }

  /** The token is the last thing on its way to t. */
  predicate Flying(G: Setup, s: Side, t: Side, toS: seq<Msg>, toT: seq<Msg>) {
    && Waiter(s) && Waiter(t) && !s.over && !t.over && toS == [] && s.taken < WinOf(G) && t.taken < WinOf(G)
    && toT != [] && IsToken(toT[|toT| - 1]) && NoToken(toT[..|toT| - 1])
  }

  /** s has let the last point go. */
  predicate Ended(G: Setup, s: Side, t: Side, toS: seq<Msg>, toT: seq<Msg>) {
    s.over && s.taken == WinOf(G) && !s.pending && s.ball.None? && Waiter(t) && toS == [] && NoToken(toT)
      && t.taken < WinOf(G) && (t.over <==> t.given == WinOf(G))
  }

  predicate OneToken(G: Setup, w: World) {
    || Held(G, w.a, w.b, w.toA, w.toB) || Held(G, w.b, w.a, w.toB, w.toA)
    || Flying(G, w.a, w.b, w.toA, w.toB) || Flying(G, w.b, w.a, w.toB, w.toA)
    || Ended(G, w.a, w.b, w.toA, w.toB) || Ended(G, w.b, w.a, w.toB, w.toA)
  }

  /** No point is lost or counted twice. */
  predicate PointsOk(w: World) { w.a.given + Points(w.toA) == w.b.taken && w.b.given + Points(w.toB) == w.a.taken }

  predicate WorldOk(w: World, G: Setup, root: real -> real) {
    OneToken(G, w) && PointsOk(w) && HonestMsgs(w.toA, G, root) && HonestMsgs(w.toB, G, root)
  }

  lemma {:induction false} CountsAdd(a: seq<Msg>, b: seq<Msg>)
    ensures Points(a + b) == Points(a) + Points(b) && Tokens(a + b) == Tokens(a) + Tokens(b)
    decreases |b|
  {
    if b == [] {
      assert a + b == a;
    } else {
      CountsAdd(a, b[..|b| - 1]);
      assert (a + b)[..|a + b| - 1] == a + b[..|b| - 1];
    }
  }

  lemma OneMsg(m: Msg)
    ensures Points([m]) == Count(m == Pt) && Tokens([m]) == Count(IsToken(m))
  {
    assert [m][..0] == [];
  }

  lemma HeadCounts(ms: seq<Msg>)
    requires ms != []
    ensures Points(ms) == Points(ms[1..]) + Count(ms[0] == Pt)
  {
    CountsAdd([ms[0]], ms[1..]);
    assert [ms[0]] + ms[1..] == ms;
    OneMsg(ms[0]);
  }

  lemma {:induction false} NoTokensCount(ms: seq<Msg>)
    requires NoToken(ms)
    ensures Tokens(ms) == 0
  {
    if ms != [] { NoTokensCount(ms[..|ms| - 1]); }
  }

  /** The invariant says it: exactly one token while the match goes on, none once it has ended. */
  lemma ExactlyOne(w: World, G: Setup, root: real -> real)
    requires WorldOk(w, G, root)
    ensures TokenCount(w) == if w.a.over || w.b.over then 0 else 1
  {
    if NoToken(w.toA) { NoTokensCount(w.toA); } else { LastToken(w.toA); }
    if NoToken(w.toB) { NoTokensCount(w.toB); } else { LastToken(w.toB); }
    hide InPlay, Tokens, Points, HonestMsgs;
  }

  lemma LastToken(ms: seq<Msg>)
    ensures ms != [] && IsToken(ms[|ms| - 1]) && NoToken(ms[..|ms| - 1]) ==> Tokens(ms) == 1
  {
    if ms != [] && NoToken(ms[..|ms| - 1]) { NoTokensCount(ms[..|ms| - 1]); }
  }

  // ---------- every move keeps it ----------

  lemma SpotInPlay(g: Game, b: Ball)
    requires SpotOk(g, b)
    ensures InPlay(g, b)
  {
    if !g.Flipper? { SmallSpeed(b.vx, b.vy); }
    assert Sq(2400.0) == 5760000.0 && Sq(2300.0) == 5290000.0 && Sq(1500.0) == 2250000.0 && Sq(700.0) == 490000.0;
    hide Sq;
  }

  lemma SmallSpeed(x: real, y: real)
    requires -80.0 <= x <= 80.0 && 0.0 <= y <= 60.0
    ensures Sq(x) + Sq(y) <= 10000.0
  {
    NotNegative(80.0 - x, 80.0 + x, 6400.0 - Sq(x));
    NotNegative(60.0 - y, 60.0 + y, 3600.0 - Sq(y));
  }

  lemma HonestCat(a: seq<Msg>, b: seq<Msg>, G: Setup, root: real -> real)
    requires HonestMsgs(a, G, root) && HonestMsgs(b, G, root)
    ensures HonestMsgs(a + b, G, root)
  {
    hide HonestMsg;
  }

  lemma NoTokenCat(a: seq<Msg>, b: seq<Msg>)
    requires NoToken(a) && NoToken(b)
    ensures NoToken(a + b)
  {
  }

  lemma NobodyWonYet(G: Setup, w: World)
    requires PointsOk(w) && w.a.taken < WinOf(G) && w.b.taken < WinOf(G)
    ensures w.a.given < WinOf(G) && w.b.given < WinOf(G)
  {
  }

  /** What the holder says while it keeps the token. */
  lemma HolderTalks(w: World, a': Side, out: seq<Msg>, G: Setup, root: real -> real)
    requires WorldOk(w, G, root) && Held(G, w.a, w.b, w.toA, w.toB) && HonestMsgs(out, G, root) && NoToken(out)
    requires Holder(G, a') && a'.taken == w.a.taken + Points(out) < WinOf(G) && a'.given == w.a.given
    ensures WorldOk(w.(a := a', toB := w.toB + out), G, root)
  {
    CountsAdd(w.toB, out);
    hide Points, Holder, HonestMsg;
    assert Held(G, a', w.b, w.toA, w.toB + out);
  }

  lemma HolderPasses(w: World, a': Side, told: seq<Msg>, m: Msg, G: Setup, root: real -> real)
    requires WorldOk(w, G, root) && Held(G, w.a, w.b, w.toA, w.toB) && HonestMsgs(told, G, root) && NoToken(told)
    requires Points(told) == 0
    requires HonestMsg(m, G, root) && IsToken(m)
    requires Waiter(a') && !a'.over && a'.taken == w.a.taken && a'.given == w.a.given
    ensures WorldOk(w.(a := a', toB := w.toB + (told + [m])), G, root)
  {
    hide Points, HonestMsgs, Holder, NoToken, OneToken;
    var all := w.toB + (told + [m]);
    CountsAdd(w.toB, told + [m]);
    CountsAdd(told, [m]);
    OneMsg(m);
    HonestBoth(told, m, G, root);
    HonestCat(w.toB, told + [m], G, root);
    NoTokenCat(w.toB, told);
    assert all[..|all| - 1] == w.toB + told;
    FlyingIsOne(G, w.(a := a', toB := all));
  }

  lemma FlyingIsOne(G: Setup, w: World)
    requires Flying(G, w.a, w.b, w.toA, w.toB)
    ensures OneToken(G, w)
  {
    hide Held, Ended;
  }

  lemma PointIsNoToken(told: seq<Msg>)
    requires NoToken(told)
    ensures NoToken(told + [Pt])
  {
  }

  lemma EndedIsOne(G: Setup, w: World)
    requires Ended(G, w.a, w.b, w.toA, w.toB)
    ensures OneToken(G, w)
  {
    hide Held, Flying;
  }

  lemma HolderLoses(w: World, a': Side, told: seq<Msg>, G: Setup, root: real -> real)
    requires WorldOk(w, G, root) && Held(G, w.a, w.b, w.toA, w.toB) && HonestMsgs(told, G, root) && NoToken(told)
    requires Points(told) == 0
    requires a'.over && !a'.pending && a'.ball.None? && a'.taken == w.a.taken + 1 == WinOf(G) && a'.given == w.a.given
    ensures WorldOk(w.(a := a', toB := w.toB + (told + [Pt])), G, root)
  {
    hide Points, HonestMsgs, OneToken, NoToken, Holder;
    NobodyWonYet(G, w);
    CountsAdd(w.toB, told + [Pt]);
    CountsAdd(told, [Pt]);
    OneMsg(Pt);
    HonestBoth(told, Pt, G, root);
    HonestCat(w.toB, told + [Pt], G, root);
    PointIsNoToken(told);
    NoTokenCat(w.toB, told + [Pt]);
    EndedIsOne(G, w.(a := a', toB := w.toB + (told + [Pt])));
  }

  lemma WhoHolds(G: Setup, w: World)
    requires OneToken(G, w) && !w.a.over && (w.a.pending || w.a.own)
    ensures Held(G, w.a, w.b, w.toA, w.toB)
  {
    hide InPlay;
  }

  lemma ServeKeeps(w: World, G: Setup, root: real -> real)
    requires WorldOk(w, G, root) && SpotsOk(G) && w.a.pending && !w.a.over
    ensures WorldOk(FirstMoves(w, ServeTime(true), G, root), G, root)
  {
    hide OneToken, PointsOk, InPlay, HonestMsgs;
    WhoHolds(G, w);
    var r := Serves(w.a, G);
    SpotInPlay(G.g, G.spot(w.a.n));
    OneMsg(r.out[0]);
    HonestOne(r.out[0], G, root);
    HolderTalks(w, r.s, r.out, G, root);
  }

  lemma HonestOne(m: Msg, G: Setup, root: real -> real)
    requires HonestMsg(m, G, root)
    ensures HonestMsgs([m], G, root)
  {
  }

  lemma HolderConcedes(w: World, p: Ball, told: seq<Msg>, G: Setup, root: real -> real)
    requires WorldOk(w, G, root) && Held(G, w.a, w.b, w.toA, w.toB) && HonestMsgs(told, G, root) && NoToken(told)
    requires Points(told) == 0
    ensures var r := Concedes(G, w.a.(ball := Some(p))); WorldOk(w.(a := r.s, toB := w.toB + (told + r.out)), G, root)
  {
    hide OneToken, HonestMsgs, InPlay, NoToken, Points;
    var r := Concedes(G, w.a.(ball := Some(p)));
    NobodyWonYet(G, w);
    if r.s.over {
      HolderLoses(w, r.s, told, G, root);
    } else {
      CountsAdd(told, [Pt]);
      OneMsg(Pt);
      HonestBoth(told, Pt, G, root);
      PointIsNoToken(told);
      HolderTalks(w, r.s, told + [Pt], G, root);
    }
  }

  lemma OwnKeeps(w: World, u: Sub, G: Setup, root: real -> real)
    requires IsRoot(root) && WorldOk(w, G, root) && SpotsOk(G) && w.a.own && Possible1(G, w, Steps(true, u), root)
    ensures WorldOk(FirstMoves(w, Steps(true, u), G, root), G, root)
  {
    hide OneToken, PointsOk, HonestMsgs, Substep, IsRoot, FiguresOk;
    hide StepOk, OnTable, WithinSpeed, PlausiblePass, Concedes, NoToken;
    WhoHolds(G, w);
    assert InPlay(G.g, w.a.ball.value);
    var p := Substep(G.g, w.a.ball.value, u.fs, u.d, u.f, root);
    SubstepOk(G.g, w.a.ball.value, u.fs, u.d, u.f, root);
    var told := if u.tells then [Stroke(Mirror(p))] else [];
    ToldOk(u.tells, Mirror(p), G, root);
    if p.y > H + TableOf(G.g).r {
      HolderConcedes(w, p, told, G, root);
    } else if p.y < H / 2.0 && p.num && p.vy < 0.0 {
      PassIsPlausible(G.g, p, root);
      HolderPasses(w, w.a.(ball := Some(p), own := false), told, Pass(Mirror(p)), G, root);
    } else if u.late {
      HolderPasses(w, Gives(w.a, G).s, told, Give(w.a.n), G, root);
    } else {
      HolderTalks(w, w.a.(ball := Some(p)), told, G, root);
    }
  }

  lemma HonestBoth(told: seq<Msg>, m: Msg, G: Setup, root: real -> real)
    requires HonestMsgs(told, G, root) && HonestMsg(m, G, root)
    ensures HonestMsgs(told + [m], G, root)
  {
    hide HonestMsg;
  }

  lemma ToldOk(tells: bool, b: Ball, G: Setup, root: real -> real)
    ensures var told := if tells then [Stroke(b)] else [];
      HonestMsgs(told, G, root) && NoToken(told) && Points(told) == 0
  {
    OneMsg(Stroke(b));
  }

  lemma TellKeeps(w: World, G: Setup, root: real -> real)
    requires IsRoot(root) && WorldOk(w, G, root) && w.a.own && w.a.ball.Some?
    ensures WorldOk(FirstMoves(w, Tells(true), G, root), G, root)
  {
    OwnNotOver(G, w);
    hide OneToken, PointsOk, HonestMsgs, IsRoot, InPlay, PlausibleReport;
    WhoHolds(G, w);
    ReportIsPlausible(G.g, w.a.ball.value, root);
    OneMsg(St(Mirror(w.a.ball.value)));
    HonestOne(St(Mirror(w.a.ball.value)), G, root);
    HolderTalks(w, w.a, [St(Mirror(w.a.ball.value))], G, root);
  }

  lemma OwnNotOver(G: Setup, w: World)
    requires OneToken(G, w) && w.a.own && w.a.ball.Some?
    ensures !w.a.over && Held(G, w.a, w.b, w.toA, w.toB) && (w.a.pending || InPlay(G.g, w.a.ball.value))
  {
    hide InPlay;
  }

  lemma OtherKeeps(w: World, u: Sub, G: Setup, root: real -> real)
    requires WorldOk(w, G, root) && !w.a.over && !w.a.own && w.a.ball.Some?
    ensures WorldOk(w.(a := OtherSubstep(G, w.a, u)), G, root)
  {
    hide AtWalls, Glided, HonestMsgs, InPlay;
    FlownOn(G.g, w.a.ball.value, u.d, u.f);
  }

  // ---------- arrivals ----------

  /** Where something is on its way, the receiver waits. */
  lemma ReceiverWaits(G: Setup, w: World)
    requires OneToken(G, w) && w.toA != []
    ensures Waiter(w.a) && w.toB == []
    ensures (Held(G, w.b, w.a, w.toB, w.toA) || Flying(G, w.b, w.a, w.toB, w.toA) || Ended(G, w.b, w.a, w.toB, w.toA))
  {
    hide InPlay;
  }

  lemma TailOk(ms: seq<Msg>, G: Setup, root: real -> real)
    requires ms != [] && HonestMsgs(ms, G, root)
    ensures HonestMsgs(ms[1..], G, root) && HonestMsg(ms[0], G, root)
    ensures NoToken(ms) ==> NoToken(ms[1..])
    ensures IsToken(ms[|ms| - 1]) && NoToken(ms[..|ms| - 1]) && !IsToken(ms[0]) ==>
      |ms| > 1 && ms[1..] != [] && ms[1..][|ms| - 2] == ms[|ms| - 1] && NoToken(ms[1..][..|ms| - 2])
    ensures IsToken(ms[|ms| - 1]) && NoToken(ms[..|ms| - 1]) && IsToken(ms[0]) ==> |ms| == 1
  {
    hide HonestMsg;
    if IsToken(ms[|ms| - 1]) && NoToken(ms[..|ms| - 1]) {
      if |ms| > 1 {
        assert ms[..|ms| - 1][0] == ms[0];
        assert ms[1..][..|ms| - 2] == ms[..|ms| - 1][1..];
      }
    }
  }

  /** The honest token is taken, never turned down. */
  lemma TokenIsTaken(s: Side, m: Msg, near: bool, G: Setup, root: real -> real)
    requires !s.over && Waiter(s) && IsToken(m) && HonestMsg(m, G, root) && SpotsOk(G)
    ensures var r := Receive(s, m, near, G, root);
      Holder(G, r) && r.rejected == s.rejected && r.given == s.given && r.taken == s.taken
  {
    if m.Give? { SpotInPlay(G.g, G.spot(m.n)); }
    hide InPlay, PlausiblePass;
  }

  /**
    Serves and points of an honest phone are never turned down either, and reports exactly when the ball has no speed;
    only a stroke may be turned down besides.
   */
  lemma OthersAreTaken(s: Side, m: Msg, near: bool, G: Setup, root: real -> real)
    requires !s.over && Waiter(s) && !IsToken(m) && HonestMsg(m, G, root) && SpotsOk(G)
    ensures var r := Receive(s, m, near, G, root);
      && !r.own && !r.pending && r.taken == s.taken && r.given == s.given + Count(m == Pt)
      && (r.over <==> m == Pt && (r.given >= WinOf(G) || r.taken >= WinOf(G)))
      && (!m.Stroke? ==> r.rejected == s.rejected + Count(m.St? && !m.b.num))
      && (!r.over ==> Waiter(r))
  {
    hide PlausibleReport, PlausiblePass;
    if m.Stroke? { OnlyWithSpeed(G.g, m.b, near, root); }
    if m.Serve? { assert SpotOk(G.g, G.spot(m.n)); }
  }

  /** A ball without a speed costs no point and moves no token: its owner keeps it until the time to hold it is up. */
  lemma LostBall(s: Side, u: Sub, G: Setup, root: real -> real)
    requires IsRoot(root) && Holder(G, s) && !s.pending && !s.ball.value.num && FiguresOk(G.g, u.fs)
    requires StepOk(G.g, u.d, u.f) && SpotsOk(G)
    ensures var r := OwnSubstep(s, u, G, root);
      && r.s.given == s.given && r.s.taken == s.taken && Points(r.out) == 0
      && if u.late then Waiter(r.s) && Tokens(r.out) == 1
         else Holder(G, r.s) && !r.s.ball.value.num && Tokens(r.out) == 0
  {
    hide Substep, IsRoot, FiguresOk, StepOk, OnTable, WithinSpeed;
    SubstepOk(G.g, s.ball.value, u.fs, u.d, u.f, root);
    var b := Substep(G.g, s.ball.value, u.fs, u.d, u.f, root);
    var told := if u.tells then [Stroke(Mirror(b))] else [];
    assert SpotOk(G.g, G.spot(s.n));
    ToldOk(u.tells, Mirror(b), G, root);
    CountsAdd(told, [Give(s.n)]);
    OneMsg(Stroke(Mirror(b)));
    OneMsg(Give(s.n));
    hide Points, Tokens;
  }

  lemma TokenArrives(w: World, near: bool, G: Setup, root: real -> real)
    requires WorldOk(w, G, root) && SpotsOk(G) && w.toA != [] && IsToken(w.toA[0])
    ensures WorldOk(FirstMoves(w, Arrives(true, near), G, root), G, root)
  {
    ReceiverWaits(G, w);
    assert Flying(G, w.b, w.a, w.toB, w.toA);
    TailOk(w.toA, G, root);
    HeadCounts(w.toA);
    TokenIsTaken(w.a, w.toA[0], near, G, root);
    hide Points, Holder, HonestMsg, HonestMsgs, Receive;
    var v := FirstMoves(w, Arrives(true, near), G, root);
    assert Held(G, v.a, v.b, v.toA, v.toB);
  }

  lemma OtherArrives(w: World, near: bool, G: Setup, root: real -> real)
    requires WorldOk(w, G, root) && SpotsOk(G) && w.toA != [] && !IsToken(w.toA[0])
    ensures WorldOk(FirstMoves(w, Arrives(true, near), G, root), G, root)
  {
    ReceiverWaits(G, w);
    TailOk(w.toA, G, root);
    HeadCounts(w.toA);
    AfterTheEnd(G, w);
    hide Points, Holder, HonestMsg, HonestMsgs;
    var v := FirstMoves(w, Arrives(true, near), G, root);
    if !w.a.over {
      OthersAreTaken(w.a, w.toA[0], near, G, root);
      hide Receive;
      if Held(G, w.b, w.a, w.toB, w.toA) {
        assert Held(G, v.b, v.a, v.toB, v.toA);
      } else if Flying(G, w.b, w.a, w.toB, w.toA) {
        assert Flying(G, v.b, v.a, v.toB, v.toA);
      } else {
        assert Ended(G, v.b, v.a, v.toB, v.toA);
      }
    } else {
      assert Ended(G, v.b, v.a, v.toB, v.toA);
    }
  }

  /** A phone that is over has no point on its way to it. */
  lemma AfterTheEnd(G: Setup, w: World)
    requires OneToken(G, w) && PointsOk(w) && w.toA != []
    ensures w.a.over ==> Points(w.toA) == 0
  {
    hide InPlay, Points;
  }

  lemma FirstKeeps(w: World, m: Move, G: Setup, root: real -> real)
    requires IsRoot(root) && SpotsOk(G) && WorldOk(w, G, root) && Possible1(G, w, m, root)
    ensures WorldOk(FirstMoves(w, m, G, root), G, root)
  {
    hide WorldOk, IsRoot, FiguresOk, StepOk, OwnSubstep, OtherSubstep, Receive, Serves;
    match m
    case ServeTime(_) => ServeKeeps(w, G, root);
    case Steps(_, u) => if w.a.own { OwnKeeps(w, u, G, root); } else { OtherKeeps(w, u, G, root); }
    case Tells(_) => TellKeeps(w, G, root);
    case Arrives(_, near) =>
      if IsToken(w.toA[0]) { TokenArrives(w, near, G, root); } else { OtherArrives(w, near, G, root); }
  }

  lemma StepKeeps(w: World, m: Move, G: Setup, root: real -> real)
    requires IsRoot(root) && SpotsOk(G) && WorldOk(w, G, root) && Possible(G, w, m, root)
    ensures WorldOk(Moved(w, m, G, root), G, root)
  {
    hide IsRoot, FirstMoves, Held, Flying, Ended, HonestMsgs, Points;
    if m.first { FirstKeeps(w, m, G, root); } else { FirstKeeps(Swapped(w), m, G, root); }
  }

  ghost predicate Runs(ws: seq<World>, ms: seq<Move>, G: Setup, root: real -> real) {
    && |ws| == |ms| + 1 && ws[0] == World(Start(true), Start(false), [], [])
    && forall i :: 0 <= i < |ms| ==> Possible(G, ws[i], ms[i], root) && ws[i + 1] == Moved(ws[i], ms[i], G, root)
  }

  lemma StartOk(G: Setup, root: real -> real)
    ensures WorldOk(World(Start(true), Start(false), [], []), G, root)
  {
    assert Held(G, Start(true), Start(false), [], []);
  }

  lemma {:induction false} RunKeeps(ws: seq<World>, ms: seq<Move>, G: Setup, root: real -> real, i: nat)
    requires IsRoot(root) && SpotsOk(G) && Runs(ws, ms, G, root) && i < |ws|
    ensures WorldOk(ws[i], G, root)
  {
    hide IsRoot, WorldOk, Moved, Possible, SpotsOk;
    if i == 0 {
      StartOk(G, root);
    } else {
      RunKeeps(ws, ms, G, root, i - 1);
      StepKeeps(ws[i - 1], ms[i - 1], G, root);
    }
  }

  /** On every run: one token until the end, no point lost or doubled, and phones that are over have mirrored scores. */
  lemma OneOwner(ws: seq<World>, ms: seq<Move>, G: Setup, root: real -> real, i: nat)
    requires IsRoot(root) && SpotsOk(G) && Runs(ws, ms, G, root) && i < |ws|
    ensures var w := ws[i];
      && TokenCount(w) == (if w.a.over || w.b.over then 0 else 1)
      && w.a.given + Points(w.toA) == w.b.taken && w.b.given + Points(w.toB) == w.a.taken
      && (w.a.over && w.b.over ==> w.a.given == w.b.taken && w.b.given == w.a.taken)
      && (w.toA == [] && w.toB == [] ==> w.a.over == w.b.over)
  {
    RunKeeps(ws, ms, G, root, i);
    ExactlyOne(ws[i], G, root);
    OverTogether(G, ws[i]);
    hide Runs, OneToken, TokenCount, Points, HonestMsgs;
  }

  lemma OverTogether(G: Setup, w: World)
    requires OneToken(G, w) && PointsOk(w)
    ensures w.a.over && w.b.over ==> w.a.given == w.b.taken && w.b.given == w.a.taken
    ensures w.toA == [] && w.toB == [] ==> w.a.over == w.b.over
  {
    hide InPlay;
  }
}
