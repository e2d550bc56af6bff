/** Full-state repair: two editors send each other everything they hold. */
module CollabExchange {
  import opened CollabState
  import opened CollabRuns
  import opened TextOrder

  /** The parts of an op that are checked without looking at the receiver's state. */
  predicate Clean(op: Op, rules: Rules) {
    match op
    case SetField(key, v, at) => rules.field(key, v) && IsActor(at.a)
    case Put(id, v, at) => IsStickerId(id) && rules.shape(v) && IsActor(at.a)
    case Drop(id, l) => IsStickerId(id)
  }

  /** A document as an honest editor holds it. */
  ghost predicate Sound(d: Doc, rules: Rules) {
    && WellStamped(d)
    && d.stickers.Keys !! d.dead.Keys
    && IdCount(d) <= MAX_IDS
    && forall op :: op in FullSet(d) ==> Clean(op, rules)
  }

  ghost predicate Enumerates(ops: seq<Op>, all: set<Op>) {
    forall op :: op in ops <==> op in all
  }

  function Elems(ops: seq<Op>): set<Op> { set i | 0 <= i < |ops| :: ops[i] }

  lemma EnumeratedElems(ops: seq<Op>, all: set<Op>)
    requires Enumerates(ops, all)
    ensures Elems(ops) == all
  {
  }

  lemma NoElems(base: set<Op>)
    ensures base + Elems([]) == base
  {
  }

  lemma ElemsGrow(base: set<Op>, ops: seq<Op>)
    requires ops != []
    ensures base + Elems(ops) == base + Elems(ops[..|ops| - 1]) + {ops[|ops| - 1]}
  {
    var most, last := ops[..|ops| - 1], ops[|ops| - 1];
    forall x | x in Elems(ops) ensures x in Elems(most) + {last} {
      var i :| 0 <= i < |ops| && ops[i] == x;
      if i < |most| { assert most[i] == x; }
    }
    forall x | x in Elems(most) ensures x in Elems(ops) {
      var i :| 0 <= i < |most| && most[i] == x;
      assert ops[i] == x;
    }
    assert ops[|ops| - 1] in Elems(ops);
  }

  lemma CountIsIds(d: Doc)
    requires d.stickers.Keys !! d.dead.Keys
    ensures IdCount(d) == |Ids(d)|
  {
  }

  lemma Room(some: set<string>, all: set<string>, id: string)
    requires some <= all && id in all && id !in some
    ensures |some| < |all|
  {
    assert some <= all - {id};
    SubsetSize(some, all - {id});
  }

  lemma {:induction false} SubsetSize(s: set<string>, t: set<string>)
    requires s <= t
    ensures |s| <= |t|
  {
    if s != {} {
      var x :| x in s;
      SubsetSize(s - {x}, t - {x});
    }
  }

  /** The receiver `d`, started as `b`, is still fit to take every op of `a`. */
  ghost predicate Fit(d: Doc, a: Doc, b: Doc) {
    && d.stickers.Keys !! d.dead.Keys
    && Ids(d) <= Ids(a) + Ids(b)
    && b.clock <= d.clock
  }

  lemma AcceptsFull(d: Doc, a: Doc, b: Doc, op: Op, rules: Rules)
    requires Sound(a, rules) && Fit(d, a, b) && op in FullSet(a)
    requires a.clock <= b.clock + MAX_JUMP && |Ids(a) + Ids(b)| <= MAX_IDS
    ensures Accepts(d, op, rules)
  {
    assert Clean(op, rules);
    StampOfEntry(a, op);
    if op.Put? || op.Drop? {
      CountIsIds(d);
      IdOfEntry(a, op);
      if op.id !in Ids(d) { Room(Ids(d), Ids(a) + Ids(b), op.id); }
    }
  }

  lemma FitKept(d: Doc, a: Doc, b: Doc, op: Op)
    requires Fit(d, a, b) && op in FullSet(a)
    ensures Fit(Applied(d, op), a, b)
  {
    CountKept(d, op);
    DisjointKept(d, op);
    if op.Put? || op.Drop? { IdOfEntry(a, op); }
    ClockKept(d, op);
    Within(Ids(Applied(d, op)), Ids(d), if op.Put? || op.Drop? then {op.id} else {}, Ids(a) + Ids(b));
  }

  lemma Within(s: set<string>, t: set<string>, u: set<string>, all: set<string>)
    requires s == t + u && t <= all && u <= all
    ensures s <= all
  {
  }

  lemma ClockKept(d: Doc, op: Op)
    ensures d.clock <= Applied(d, op).clock
  {
  }

  lemma FitStart(a: Doc, b: Doc, rules: Rules)
    requires Sound(b, rules)
    ensures Fit(b, a, b) && Reflects(b, FullSet(b))
  {
    ReflectsItself(b);
  }

  lemma StampOfEntry(a: Doc, op: Op)
    requires WellStamped(a) && op in FullSet(a)
    ensures 1 <= (if op.Drop? then op.l else op.at.l) <= a.clock <= MAX_CLOCK
  {
  }

  lemma IdOfEntry(a: Doc, op: Op)
    requires op in FullSet(a) && (op.Put? || op.Drop?)
    ensures op.id in Ids(a)
  {
  }

  lemma DisjointKept(d: Doc, op: Op)
    requires d.stickers.Keys !! d.dead.Keys
    ensures Applied(d, op).stickers.Keys !! Applied(d, op).dead.Keys
    ensures Ids(Applied(d, op)) >= Ids(d)
  {
  }

  /** With room for all ids, no op of a full state is turned away, in whatever order it comes. */
  lemma {:induction false} FullArrives(a: Doc, b: Doc, ops: seq<Op>, rules: Rules)
    requires Sound(a, rules) && Sound(b, rules) && (forall op :: op in ops ==> op in FullSet(a))
    requires a.clock <= b.clock + MAX_JUMP && |Ids(a) + Ids(b)| <= MAX_IDS
    ensures Fit(ReceiveAll(b, ops, rules), a, b)
    ensures Reflects(ReceiveAll(b, ops, rules), FullSet(b) + Elems(ops))
  {
    hide Reflects, Sound, Fit, Applied, Accepts, FullSet;
    if ops == [] {
      FitStart(a, b, rules);
      assert FullSet(b) + Elems(ops) == FullSet(b);
    } else {
      var most, last := ops[..|ops| - 1], ops[|ops| - 1];
      FullArrives(a, b, most, rules);
      AcceptsFull(ReceiveAll(b, most, rules), a, b, last, rules);
      FitKept(ReceiveAll(b, most, rules), a, b, last);
      AppliedReflects(ReceiveAll(b, most, rules), last, FullSet(b) + Elems(most));
      ElemsGrow(FullSet(b), ops);
    }
  }

  /** However crowded it gets, a receiver never forgets an id and never holds more than MAX_IDS. */
  lemma {:induction false} Capped(d: Doc, ops: seq<Op>, rules: Rules)
    requires d.stickers.Keys !! d.dead.Keys && IdCount(d) <= MAX_IDS
    ensures var e := ReceiveAll(d, ops, rules);
      e.stickers.Keys !! e.dead.Keys && IdCount(e) <= MAX_IDS && Ids(d) <= Ids(e)
  {
    hide Applied, OkStamp, OkClock, IsStickerId;
    if ops != [] {
      var most, last := ops[..|ops| - 1], ops[|ops| - 1];
      Capped(d, most, rules);
      CountKept(ReceiveAll(d, most, rules), last);
      DisjointKept(ReceiveAll(d, most, rules), last);
    }
  }

  lemma RoomForAll(a: Doc, b: Doc, fromA: seq<Op>, fromB: seq<Op>, rules: Rules)
    requires Sound(a, rules) && Sound(b, rules) && Coherent(FullSet(a) + FullSet(b))
    requires Enumerates(fromA, FullSet(a)) && Enumerates(fromB, FullSet(b))
    requires a.clock <= b.clock + MAX_JUMP && b.clock <= a.clock + MAX_JUMP
    requires |Ids(a) + Ids(b)| <= MAX_IDS
    ensures SameContent(ReceiveAll(a, fromB, rules), ReceiveAll(b, fromA, rules))
  {
    hide Reflects, Sound, Fit, FullSet, Coherent, SameContent, Ids;
    assert Ids(a) + Ids(b) == Ids(b) + Ids(a);
    FullArrives(a, b, fromA, rules);
    FullArrives(b, a, fromB, rules);
    assert Elems(fromA) == FullSet(a) && Elems(fromB) == FullSet(b);
    assert FullSet(a) + FullSet(b) == FullSet(b) + FullSet(a);
    OneOutcome(ReceiveAll(a, fromB, rules), ReceiveAll(b, fromA, rules), FullSet(a) + FullSet(b));
  }

  lemma TooCrowded(a: Doc, b: Doc, fromA: seq<Op>, fromB: seq<Op>, rules: Rules)
    requires Sound(a, rules) && Sound(b, rules)
    requires |Ids(a) + Ids(b)| > MAX_IDS
    ensures !SameContent(ReceiveAll(a, fromB, rules), ReceiveAll(b, fromA, rules))
  {
    var a', b' := ReceiveAll(a, fromB, rules), ReceiveAll(b, fromA, rules);
    Capped(a, fromB, rules);
    Capped(b, fromA, rules);
    if SameContent(a', b') {
      CountIsIds(a');
      SubsetSize(Ids(a) + Ids(b), Ids(a'));
    }
  }

  /** Whatever lists two editors may show, they are the same. */
  ghost predicate SameList(d: Doc, e: Doc) { forall x, y :: MayShow(d, x) && MayShow(e, y) ==> x == y }

  /**
    Two honest editors who send each other their full state end with the same document exactly when all their
    stickers together, live and deleted, fit into MAX_IDS.
   */
  lemma ExchangeConverges(a: Doc, b: Doc, fromA: seq<Op>, fromB: seq<Op>, rules: Rules)
    requires Sound(a, rules) && Sound(b, rules) && Coherent(FullSet(a) + FullSet(b))
    requires Enumerates(fromA, FullSet(a)) && Enumerates(fromB, FullSet(b))
    requires a.clock <= b.clock + MAX_JUMP && b.clock <= a.clock + MAX_JUMP
    ensures SameContent(ReceiveAll(a, fromB, rules), ReceiveAll(b, fromA, rules)) <==> |Ids(a) + Ids(b)| <= MAX_IDS
    ensures |Ids(a) + Ids(b)| <= MAX_IDS ==> SameList(ReceiveAll(a, fromB, rules), ReceiveAll(b, fromA, rules))
  {
    hide Sound, Coherent, Enumerates, SameContent, MayShow;
    if |Ids(a) + Ids(b)| <= MAX_IDS {
      RoomForAll(a, b, fromA, fromB, rules);
      SameVisible(ReceiveAll(a, fromB, rules), ReceiveAll(b, fromA, rules));
    } else {
      TooCrowded(a, b, fromA, fromB, rules);
    }
  }

  // ---------- any two editors of a run ----------

  /** A local edit writes what the editor's own filters let through. */
  predicate Fair(e: Event, rules: Rules) {
    match e
    case SetLocal(key, v) => rules.field(key, v)
    case NewSticker(v) => rules.shape(v)
    case MoveSticker(_, v) => rules.shape(v)
    case _ => true
  }

  ghost predicate AllClean(ops: set<Op>, rules: Rules) { forall op :: op in ops ==> Clean(op, rules) }

  ghost predicate Named(w: World) { forall a :: a in w.nodes ==> IsActor(a) }

  function Ten(k: nat): nat { if k == 0 then 1 else 10 * Ten(k - 1) }

  lemma {:induction false} DecimalLength(n: nat, k: nat)
    requires n < Ten(k) && k > 0
    ensures |Decimal(n)| <= k
    decreases k
  {
    if n >= 10 { DecimalLength(n / 10, k - 1); }
  }

  /** Every id a clock can give out is one the receiver's pattern lets through. */
  lemma IdIsValid(n: nat, actor: string)
    requires n <= MAX_CLOCK && IsActor(actor)
    ensures IsStickerId(StickerId(n, actor))
  {
    DecimalLength(n, 13);
    var s, k := StickerId(n, actor), |Decimal(n)|;
    assert s[k + 1..] == actor;
    assert 1 <= k <= 13 && k < |s| && s[k] == '.' && (forall i :: 0 <= i < k ==> IsDigit(s[i])) && IsActor(s[k + 1..]);
  }

  lemma MadeClean(w: World, a: string, e: Event, rules: Rules)
    requires Inv(w) && Enabled(w, a, e) && !e.Arrive? && Fair(e, rules) && AllClean(w.ops, rules) && Named(w)
    ensures Clean(Made(w.nodes[a].doc, a, e).1, rules)
  {
    var d := w.nodes[a].doc;
    assert GoodNode(w.nodes[a], w.ops);
    hide IsStickerId, IsActor, StickerId;
    match e
    case SetLocal(_, _) =>
    case NewSticker(_) => IdIsValid(Tick(d).clock, a);
    case MoveSticker(id, _) => HeldIsClean(d, id, w.nodes[a].known, w.ops, rules);
    case Kill(id) => HeldIsClean(d, id, w.nodes[a].known, w.ops, rules);
  }

  lemma HeldIsClean(d: Doc, id: string, known: set<Op>, ops: set<Op>, rules: Rules)
    requires Reflects(d, known) && known <= ops && AllClean(ops, rules) && id in d.stickers
    ensures IsStickerId(id)
  {
    var op := Put(id, d.stickers[id].v, d.stickers[id].at);
    assert op in FullSet(d) && Clean(op, rules);
  }

  lemma {:induction false} RunClean(w: World, steps: seq<(string, Event)>, w': World, rules: Rules)
    requires Inv(w) && Run(w, steps, w', rules) && AllClean(w.ops, rules) && Named(w)
    requires forall i :: 0 <= i < |steps| ==> Fair(steps[i].1, rules)
    ensures AllClean(w'.ops, rules) && Named(w')
    decreases |steps|
  {
    hide Inv, Clean, Fair, Enabled, IsActor;
    if steps != [] {
      var a, e := steps[0].0, steps[0].1;
      StepKeeps(w, a, e, rules);
      if !e.Arrive? { MadeClean(w, a, e, rules); }
      SameNames(w, a, e, rules);
      RunClean(Next(w, a, e, rules), steps[1..], w', rules);
    }
  }

  lemma SameNames(w: World, a: string, e: Event, rules: Rules)
    requires Enabled(w, a, e) && Named(w)
    ensures Named(Next(w, a, e, rules))
    ensures Next(w, a, e, rules).ops == if e.Arrive? then w.ops else w.ops + {Made(w.nodes[a].doc, a, e).1}
  {
    hide IsActor;
  }

  lemma NodeIsSound(w: World, a: string, rules: Rules)
    requires Inv(w) && AllClean(w.ops, rules) && a in w.nodes
    ensures Sound(w.nodes[a].doc, rules) && FullSet(w.nodes[a].doc) <= w.ops
  {
    hide Clean, FullSet;
    assert GoodNode(w.nodes[a], w.ops);
  }

  /**
    In every run in which the editors write what their filters let through, any two of them whose clocks are not too
    far apart end with the same document after sending each other everything exactly when their ids fit together.
   */
  lemma EditorsExchange(w: World, steps: seq<(string, Event)>, w': World, rules: Rules, a: string, b: string,
      fromA: seq<Op>, fromB: seq<Op>)
    requires Start(w) && Named(w) && Run(w, steps, w', rules) && forall i ::
      0 <= i < |steps| ==> Fair(steps[i].1, rules)
    requires a in w'.nodes && b in w'.nodes
    requires Enumerates(fromA, FullSet(w'.nodes[a].doc)) && Enumerates(fromB, FullSet(w'.nodes[b].doc))
    requires w'.nodes[a].doc.clock <= w'.nodes[b].doc.clock + MAX_JUMP
    requires w'.nodes[b].doc.clock <= w'.nodes[a].doc.clock + MAX_JUMP
    ensures var d, e := w'.nodes[a].doc, w'.nodes[b].doc;
      && (SameContent(ReceiveAll(d, fromB, rules), ReceiveAll(e, fromA, rules)) <==> |Ids(d) + Ids(e)| <= MAX_IDS)
      && (|Ids(d) + Ids(e)| <= MAX_IDS ==> SameList(ReceiveAll(d, fromB, rules), ReceiveAll(e, fromA, rules)))
  {
    StartGood(w);
    RunKeeps(w, steps, w', rules);
    RunClean(w, steps, w', rules);
    NodeIsSound(w', a, rules);
    NodeIsSound(w', b, rules);
    hide Run, Start, Named, Fair, Sound, Enumerates, SameContent, SameList, FullSet, Ids;
    SubsetCoherent(FullSet(w'.nodes[a].doc) + FullSet(w'.nodes[b].doc), w'.ops);
    ExchangeConverges(w'.nodes[a].doc, w'.nodes[b].doc, fromA, fromB, rules);
  }

  // ---------- the two editors who outgrow the limit ----------

  /** A document after the editor alone put these stickers, each with one tick for the id and one for the stamp. */
  function Alone(actor: string, vs: seq<Value>): Doc {
    if vs == [] then EMPTY
    else
      var d := Tick(Alone(actor, vs[..|vs| - 1]));
      Edited(d, PutOp(d, actor, StickerId(d.clock, actor), vs[|vs| - 1]))
  }

  function OwnIds(actor: string, n: nat): set<string> {
    if n == 0 then {} else OwnIds(actor, n - 1) + {StickerId(2 * n - 1, actor)}
  }

  lemma {:induction false} OwnIdsFresh(a: string, n: nat, b: string, m: nat)
    requires a != b || n < m
    requires m > 0
    ensures StickerId(2 * m - 1, b) !in OwnIds(a, n)
    decreases n
  {
    if n > 0 {
      OwnIdsFresh(a, n - 1, b, m);
      if StickerId(2 * n - 1, a) == StickerId(2 * m - 1, b) { StickerIdInjective(2 * n - 1, a, 2 * m - 1, b); }
    }
  }

  lemma {:induction false} OwnIdsApart(a: string, n: nat, b: string, m: nat)
    requires a != b
    ensures OwnIds(a, n) !! OwnIds(b, m)
    decreases m
  {
    if m > 0 {
      OwnIdsApart(a, n, b, m - 1);
      OwnIdsFresh(a, n, b, m);
    }
  }

  lemma {:induction false} OwnIdsCount(actor: string, n: nat)
    ensures |OwnIds(actor, n)| == n
    decreases n
  {
    hide StickerId;
    if n > 0 {
      OwnIdsCount(actor, n - 1);
      OwnIdsFresh(actor, n - 1, actor, n);
    }
  }

  /** What lonely stickers leave: no fields, no tombstones, the ids in order. */
  ghost predicate Lonely(d: Doc, actor: string, n: nat) {
    d.clock == 2 * n && d.fields == map[] && d.dead == map[] && d.stickers.Keys == OwnIds(actor, n)
  }

  lemma {:induction false} AloneShape(actor: string, vs: seq<Value>)
    requires |vs| <= LOCAL_IDS
    ensures Lonely(Alone(actor, vs), actor, |vs|)
    decreases |vs|
  {
    hide StickerId, Lonely;
    LonelyEmpty(actor);
    if vs != [] {
      var n := |vs|;
      AloneShape(actor, vs[..n - 1]);
      LonelyPut(Alone(actor, vs[..n - 1]), actor, n, vs[n - 1]);
    }
  }

  lemma LonelyEmpty(actor: string)
    ensures Lonely(EMPTY, actor, 0)
  {
  }

  /** One more sticker of one's own. */
  lemma LonelyPut(d: Doc, actor: string, n: nat, v: Value)
    requires 0 < n <= LOCAL_IDS && Lonely(d, actor, n - 1)
    ensures Lonely(Edited(Tick(d), PutOp(Tick(d), actor, StickerId(Tick(d).clock, actor), v)), actor, n)
  {
    hide StickerId;
    assert Tick(d).clock == 2 * n - 1;
  }

  lemma AloneIds(actor: string, vs: seq<Value>)
    requires |vs| <= LOCAL_IDS
    ensures Ids(Alone(actor, vs)) == OwnIds(actor, |vs|) && IdCount(Alone(actor, vs)) == |vs|
    ensures Alone(actor, vs).clock == 2 * |vs|
  {
    hide OwnIds, Alone;
    AloneShape(actor, vs);
    OwnIdsCount(actor, |vs|);
    assert Alone(actor, vs).dead.Keys == {};
  }

  /** One editor of a run, who has done nothing yet, puts stickers one after the other; nobody else changes. */
  lemma {:induction false} PutsAlone(w: World, steps: seq<(string, Event)>, w0: World, a: string, vs: seq<Value>,
      rules: Rules)
    returns (steps': seq<(string, Event)>, w': World)
    requires Run(w, steps, w0, rules) && a in w0.nodes && w0.nodes[a].doc == EMPTY && |vs| <= LOCAL_IDS
    requires (forall v :: v in vs ==> rules.shape(v)) && forall i :: 0 <= i < |steps| ==> Fair(steps[i].1, rules)
    ensures Run(w, steps', w', rules) && forall i :: 0 <= i < |steps'| ==> Fair(steps'[i].1, rules)
    ensures w'.nodes.Keys == w0.nodes.Keys && w'.nodes[a].doc == Alone(a, vs) && forall b ::
      b in w0.nodes && b != a ==> w'.nodes[b] == w0.nodes[b]
    decreases |vs|
  {
    if vs == [] {
      return steps, w0;
    }
    hide StickerId, Run;
    var most, v := vs[..|vs| - 1], vs[|vs| - 1];
    assert v in vs && forall x :: x in most ==> x in vs;
    var s, u := PutsAlone(w, steps, w0, a, most, rules);
    AloneIds(a, most);
    RunSnoc(w, s, u, a, NewSticker(v), rules);
    steps', w' := s + [(a, NewSticker(v))], Next(u, a, NewSticker(v), rules);
    PutIsAlone(u, a, vs, rules);
  }

  lemma PutIsAlone(u: World, a: string, vs: seq<Value>, rules: Rules)
    requires vs != [] && a in u.nodes && u.nodes[a].doc == Alone(a, vs[..|vs| - 1])
    requires Enabled(u, a, NewSticker(vs[|vs| - 1]))
    ensures var w' := Next(u, a, NewSticker(vs[|vs| - 1]), rules);
      w'.nodes.Keys == u.nodes.Keys && w'.nodes[a].doc == Alone(a, vs) && forall b :: b in u.nodes && b != a ==>
        w'.nodes[b] == u.nodes[b]
  {
    hide StickerId;
  }

  /**
    The limit of LOCAL_IDS on each side does not keep two honest editors below MAX_IDS. For any two editors and any
    stickers, each list within the own limit but both together over MAX_IDS, there is a run in which they put them, and
    after which sending each other everything leaves different documents.
   */
  lemma LocalLimitIsNotEnough(a: string, va: seq<Value>, b: string, vb: seq<Value>, rules: Rules)
    returns (w: World, steps: seq<(string, Event)>, w': World)
    requires a != b && IsActor(a) && IsActor(b) && forall v :: v in va + vb ==> rules.shape(v)
    requires |va| <= LOCAL_IDS && |vb| <= LOCAL_IDS && |va| + |vb| > MAX_IDS
    ensures Start(w) && Named(w) && Run(w, steps, w', rules) && forall i :: 0 <= i < |steps| ==> Fair(steps[i].1, rules)
    ensures a in w'.nodes && b in w'.nodes && w'.nodes[a].doc == Alone(a, va) && w'.nodes[b].doc == Alone(b, vb)
    ensures forall fromA, fromB ::
      Enumerates(fromA, FullSet(Alone(a, va))) && Enumerates(fromB, FullSet(Alone(b, vb))) ==>
      !SameContent(ReceiveAll(Alone(a, va), fromB, rules), ReceiveAll(Alone(b, vb), fromA, rules))
  {
    hide Alone, SameContent, Enumerates, Run, FullSet, Fair, Start, Named;
    w, steps, w' := BothPut(a, va, b, vb, rules);
    forall fromA, fromB | Enumerates(fromA, FullSet(Alone(a, va))) && Enumerates(fromB, FullSet(Alone(b, vb)))
      ensures !SameContent(ReceiveAll(Alone(a, va), fromB, rules), ReceiveAll(Alone(b, vb), fromA, rules))
    {
      AloneTooMany(a, va, b, vb);
      EditorsExchange(w, steps, w', rules, a, b, fromA, fromB);
    }
  }

  /** Both editors put their stickers before they hear of each other. */
  lemma BothPut(a: string, va: seq<Value>, b: string, vb: seq<Value>, rules: Rules)
    returns (w: World, steps: seq<(string, Event)>, w': World)
    requires a != b && IsActor(a) && IsActor(b) && |va| <= LOCAL_IDS && |vb| <= LOCAL_IDS
    requires forall v :: v in va + vb ==> rules.shape(v)
    ensures Start(w) && Named(w) && Run(w, steps, w', rules) && forall i :: 0 <= i < |steps| ==> Fair(steps[i].1, rules)
    ensures a in w'.nodes && b in w'.nodes && w'.nodes[a].doc == Alone(a, va) && w'.nodes[b].doc == Alone(b, vb)
  {
    w := World(map[a := Node(EMPTY, {}), b := Node(EMPTY, {})], {});
    assert forall v :: v in va ==> v in va + vb;
    assert forall v :: v in vb ==> v in va + vb;
    hide Alone, Run, Fair, IsActor;
    StartRun(w, rules);
    var s, u := PutsAlone(w, [], w, a, va, rules);
    steps, w' := PutsAlone(w, s, u, b, vb, rules);
  }

  lemma AloneTooMany(a: string, va: seq<Value>, b: string, vb: seq<Value>)
    requires a != b && |va| <= LOCAL_IDS && |vb| <= LOCAL_IDS && |va| + |vb| > MAX_IDS
    ensures |Ids(Alone(a, va)) + Ids(Alone(b, vb))| > MAX_IDS
    ensures Alone(a, va).clock <= Alone(b, vb).clock + MAX_JUMP && Alone(b, vb).clock <= Alone(a, va).clock + MAX_JUMP
  {
    hide Alone, OwnIds, Ids, IdCount;
    AloneIds(a, va);
    AloneIds(b, vb);
    TooManyIds(a, |va|, b, |vb|);
  }

  lemma StartRun(w: World, rules: Rules)
    ensures Run(w, [], w, rules)
  {
  }

  lemma TooManyIds(a: string, n: nat, b: string, m: nat)
    requires a != b && n + m > MAX_IDS
    ensures |OwnIds(a, n) + OwnIds(b, m)| > MAX_IDS
  {
    OwnIdsApart(a, n, b, m);
    OwnIdsCount(a, n);
    OwnIdsCount(b, m);
  }
}
