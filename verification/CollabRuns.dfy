/** Whole runs of the document sync: any number of editors, any loss, order and repetition of ops. */
module CollabRuns {
  import opened TextOrder
  import opened CollabState

  /** One editor: its document, and every op it made or accepted so far. */
  datatype Node = Node(doc: Doc, known: set<Op>)

  /** All editors by actor name, and every op any of them ever made. */
  datatype World = World(nodes: map<string, Node>, ops: set<Op>)

  datatype Event =
    | SetLocal(key: string, v: Value)
    | NewSticker(v: Value)
    | MoveSticker(id: string, v: Value)
    | Kill(id: string)
    | Arrive(op: Op)

  ghost predicate Start(w: World) {
    w.ops == {} && forall a :: a in w.nodes ==> w.nodes[a] == Node(EMPTY, {})
  }

  /** When the editor may take the step. An op that arrives was made by someone; it may come late, twice or never. */
  predicate Enabled(w: World, a: string, e: Event) {
    && a in w.nodes
    && var d := w.nodes[a].doc;
       match e
       case SetLocal(_, _) => d.clock < MAX_CLOCK
       case NewSticker(_) => d.clock + 1 < MAX_CLOCK && IdCount(d) < LOCAL_IDS
       case MoveSticker(id, _) => d.clock < MAX_CLOCK && id in d.stickers
       case Kill(id) => d.clock < MAX_CLOCK && id in d.stickers
       case Arrive(op) => op in w.ops
  }

  function Made(d: Doc, a: string, e: Event): (r: (Doc, Op))
    requires !e.Arrive?
  {
    match e
    case SetLocal(key, v) => (d, SetOp(d, a, key, v))
    case NewSticker(v) => (Tick(d), PutOp(Tick(d), a, StickerId(Tick(d).clock, a), v))
    case MoveSticker(id, v) => (d, PutOp(d, a, id, v))
    case Kill(id) => (d, KillOp(d, id))
  }

  function NextNode(n: Node, a: string, e: Event, rules: Rules): Node
  {
    if e.Arrive? then
      if Accepts(n.doc, e.op, rules) then Node(Applied(n.doc, e.op), n.known + {e.op}) else n
    else
      var (d, op) := Made(n.doc, a, e);
      Node(Edited(d, op), n.known + {op})
  }

  function Next(w: World, a: string, e: Event, rules: Rules): World
    requires Enabled(w, a, e)
  {
    var n := NextNode(w.nodes[a], a, e, rules);
    World(w.nodes[a := n], if e.Arrive? then w.ops else w.ops + {Made(w.nodes[a].doc, a, e).1})
  }

  // ---------- what every step keeps ----------

  predicate WellStamped(d: Doc) {
    && d.clock <= MAX_CLOCK
    && (forall k :: k in d.fields ==> 1 <= d.fields[k].at.l <= d.clock)
    && (forall k :: k in d.stickers ==> 1 <= d.stickers[k].at.l <= d.clock)
    && (forall k :: k in d.dead ==> 1 <= d.dead[k] <= d.clock)
  }

  ghost predicate GoodNode(n: Node, ops: set<Op>) {
    WellStamped(n.doc) && Reflects(n.doc, n.known) && n.known <= ops && IdCount(n.doc) <= MAX_IDS
  }

  /** An op carries a stamp its maker has used, and a sticker id its first maker has given out. */
  ghost predicate Placed(w: World, op: Op) {
    && (op.SetField? || op.Put? ==> op.at.a in w.nodes && 1 <= op.at.l <= w.nodes[op.at.a].doc.clock)
    && (op.Drop? ==> op.l >= 1)
    && (op.Put? || op.Drop? ==>
          exists n: nat, b :: op.id == StickerId(n, b) && b in w.nodes && n <= w.nodes[b].doc.clock)
  }

  ghost predicate OpsPlaced(w: World) {
    forall op :: op in w.ops ==> Placed(w, op)
  }

  ghost predicate NodesGood(w: World) {
    forall a :: a in w.nodes ==> GoodNode(w.nodes[a], w.ops)
  }

  ghost predicate Inv(w: World) {
    NodesGood(w) && OpsPlaced(w) && Coherent(w.ops)
  }

  lemma StickerIdInjective(n: nat, a: string, m: nat, b: string)
    requires StickerId(n, a) == StickerId(m, b)
    ensures n == m && a == b
  {
    BirthOfId(n, a);
    BirthOfId(m, b);
    var k := |Decimal(n)|;
    assert StickerId(n, a)[k + 1..] == a && StickerId(m, b)[k + 1..] == b;
  }

  lemma BirthOfId(n: nat, a: string)
    ensures Birth(StickerId(n, a)) == n
  {
    ReadDecimal(n);
    assert StickerId(n, a) == Decimal(n) + ("." + a);
    ReadSplit(0, Decimal(n), "." + a);
  }

  /** A local op carries the newest stamp and never touches a tombstone, so writing it is the same as receiving it. */
  lemma EditedIsApplied(d: Doc, op: Op)
    requires WellStamped(d) && d.stickers.Keys !! d.dead.Keys
    requires d.clock < (if op.Drop? then op.l else op.at.l)
    requires op.Put? ==> op.id !in d.dead
    ensures Edited(d, op) == Applied(d, op)
  {
  }

  lemma ArriveKept(n: Node, op: Op, ops: set<Op>, rules: Rules)
    requires GoodNode(n, ops) && op in ops && Accepts(n.doc, op, rules)
    ensures GoodNode(Node(Applied(n.doc, op), n.known + {op}), ops)
  {
    AppliedReflects(n.doc, op, n.known);
    CountKept(n.doc, op);
    StampsKept(n.doc, op);
  }

  lemma StampsKept(d: Doc, op: Op)
    requires WellStamped(d)
    requires 1 <= (if op.Drop? then op.l else op.at.l) <= MAX_CLOCK
    ensures WellStamped(Applied(d, op))
  {
  }

  lemma LocalKept(n: Node, op: Op, ops: set<Op>)
    requires GoodNode(n, ops)
    requires n.doc.clock < (if op.Drop? then op.l else op.at.l) <= MAX_CLOCK
    requires op.Put? ==> op.id !in n.doc.dead
    requires (op.Put? || op.Drop?) && op.id !in Ids(n.doc) ==> IdCount(n.doc) < MAX_IDS
    ensures GoodNode(Node(Edited(n.doc, op), n.known + {op}), ops + {op})
  {
    EditedIsApplied(n.doc, op);
    AppliedReflects(n.doc, op, n.known);
    CountKept(n.doc, op);
    StampsKept(n.doc, op);
  }

  lemma NodeKept(w: World, a: string, e: Event, rules: Rules)
    requires a in w.nodes && GoodNode(w.nodes[a], w.ops) && OpsPlaced(w) && Enabled(w, a, e)
    ensures GoodNode(NextNode(w.nodes[a], a, e, rules), Next(w, a, e, rules).ops)
  {
    var n := w.nodes[a];
    if e.Arrive? {
      if Accepts(n.doc, e.op, rules) { ArriveKept(n, e.op, w.ops, rules); }
    } else if e.NewSticker? {
      FreshId(w, a);
      TickReflects(n.doc, n.known);
      LocalKept(Node(Tick(n.doc), n.known), Made(n.doc, a, e).1, w.ops);
    } else {
      LocalKept(n, Made(n.doc, a, e).1, w.ops);
    }
  }

  lemma TickReflects(d: Doc, known: set<Op>)
    requires Reflects(d, known)
    ensures Reflects(Tick(d), known)
  {
    assert FullSet(Tick(d)) == FullSet(d);
    assert forall op :: op in known ==> Covers(d, op) ==> Covers(Tick(d), op);
  }

  /** Only an unknown id raises the count, and by one. */
  lemma CountKept(d: Doc, op: Op)
    requires d.stickers.Keys !! d.dead.Keys
    ensures IdCount(Applied(d, op)) == IdCount(d) + (if (op.Put? || op.Drop?) && op.id !in Ids(d) then 1 else 0)
    ensures Ids(Applied(d, op)) == Ids(d) + (if op.Put? || op.Drop? then {op.id} else {})
  {
    hide Applied, IdCount, Ids;
    if op.Drop? {
      CountDrop(d, op.id, op.l);
    } else if op.Put? {
      CountPut(d, op);
    } else {
      CountField(d, op);
    }
  }

  lemma CountField(d: Doc, op: Op)
    requires op.SetField?
    ensures IdCount(Applied(d, op)) == IdCount(d) && Ids(Applied(d, op)) == Ids(d) + {}
  {
    assert Applied(d, op).stickers == d.stickers && Applied(d, op).dead == d.dead;
    assert Ids(d) + {} == Ids(d);
  }

  lemma DropKeys(d: Doc, id: string, l: nat)
    ensures Applied(d, Drop(id, l)).stickers.Keys == d.stickers.Keys - {id}
    ensures Applied(d, Drop(id, l)).dead.Keys == d.dead.Keys + {id}
  {
  }

  lemma CountDrop(d: Doc, id: string, l: nat)
    requires d.stickers.Keys !! d.dead.Keys
    ensures IdCount(Applied(d, Drop(id, l))) == IdCount(d) + (if id !in Ids(d) then 1 else 0)
    ensures Ids(Applied(d, Drop(id, l))) == Ids(d) + {id}
  {
    DropKeys(d, id, l);
    MoveOne(d.stickers.Keys, d.dead.Keys, id);
  }

  lemma PutKeys(d: Doc, op: Op)
    requires op.Put? && op.id !in d.dead
    ensures Applied(d, op).stickers.Keys == d.stickers.Keys + {op.id}
    ensures Applied(d, op).dead == d.dead
  {
  }

  lemma CountPut(d: Doc, op: Op)
    requires op.Put? && d.stickers.Keys !! d.dead.Keys
    ensures IdCount(Applied(d, op)) == IdCount(d) + (if op.id !in Ids(d) then 1 else 0)
    ensures Ids(Applied(d, op)) == Ids(d) + {op.id}
  {
    if op.id in d.dead {
      assert Applied(d, op) == d;
      assert Ids(d) == Ids(d) + {op.id};
    } else {
      PutKeys(d, op);
      hide Applied;
      AddOne(d.stickers.Keys, d.dead.Keys, op.id);
    }
  }

  lemma MoveOne(s: set<string>, t: set<string>, x: string)
    requires s !! t
    ensures |s - {x}| + |t + {x}| == |s| + |t| + (if x in s + t then 0 else 1)
    ensures (s - {x}) + (t + {x}) == s + t + {x}
  {
    if x in s { assert x !in t; }
  }

  lemma AddOne(s: set<string>, t: set<string>, x: string)
    requires x !in t
    ensures |s + {x}| + |t| == |s| + |t| + (if x in s + t then 0 else 1)
    ensures s + {x} + t == s + t + {x}
  {
    if x in s { assert s + {x} == s; }
  }

  lemma FreshId(w: World, a: string)
    requires OpsPlaced(w) && a in w.nodes && GoodNode(w.nodes[a], w.ops) && w.nodes[a].doc.clock < MAX_CLOCK
    ensures StickerId(Tick(w.nodes[a].doc).clock, a) !in Ids(w.nodes[a].doc)
  {
    var d := w.nodes[a].doc;
    var id := StickerId(Tick(d).clock, a);
    if id in Ids(d) {
      var op := if id in d.stickers then Put(id, d.stickers[id].v, d.stickers[id].at) else Drop(id, d.dead[id]);
      assert op in FullSet(d) && op in w.nodes[a].known && op in w.ops && Placed(w, op);
      var n: nat, b :| op.id == StickerId(n, b) && b in w.nodes && n <= w.nodes[b].doc.clock;
      StickerIdInjective(Tick(d).clock, a, n, b);
    }
  }

  lemma PlacedKept(w: World, w': World, op: Op)
    requires Placed(w, op) && w.nodes.Keys <= w'.nodes.Keys
    requires forall a :: a in w.nodes ==> w.nodes[a].doc.clock <= w'.nodes[a].doc.clock
    ensures Placed(w', op)
  {
    if op.Put? || op.Drop? {
      var n: nat, b :| op.id == StickerId(n, b) && b in w.nodes && n <= w.nodes[b].doc.clock;
      assert op.id == StickerId(n, b) && b in w'.nodes && n <= w'.nodes[b].doc.clock;
    }
  }

  lemma ClockGrows(w: World, a: string, e: Event, rules: Rules)
    requires Enabled(w, a, e)
    ensures forall b :: b in w.nodes ==> w.nodes[b].doc.clock <= Next(w, a, e, rules).nodes[b].doc.clock
  {
  }

  lemma MadePlaced(w: World, a: string, e: Event, rules: Rules)
    requires a in w.nodes && GoodNode(w.nodes[a], w.ops) && OpsPlaced(w) && Enabled(w, a, e) && !e.Arrive?
    ensures Placed(Next(w, a, e, rules), Made(w.nodes[a].doc, a, e).1)
  {
    var d := w.nodes[a].doc;
    var w' := Next(w, a, e, rules);
    if e.NewSticker? {
      var n: nat := Tick(d).clock;
      assert Made(d, a, e).1.id == StickerId(n, a) && a in w'.nodes && n <= w'.nodes[a].doc.clock;
    } else if !e.SetLocal? {
      var was := Put(e.id, d.stickers[e.id].v, d.stickers[e.id].at);
      assert was in FullSet(d) && was in w.ops;
      ClockGrows(w, a, e, rules);
      PlacedKept(w, w', was);
    }
  }

  /** A new op has a stamp nobody used before. */
  lemma CoherentKept(w: World, a: string, e: Event)
    requires Coherent(w.ops) && OpsPlaced(w) && Enabled(w, a, e) && !e.Arrive?
    ensures Coherent(w.ops + {Made(w.nodes[a].doc, a, e).1})
  {
    var op := Made(w.nodes[a].doc, a, e).1;
    forall o | o in w.ops && (o.SetField? || o.Put?) && (op.SetField? || op.Put?)
      ensures o.at != op.at
    {
      assert Placed(w, o);
    }
  }

  lemma OpsKept(w: World, a: string, e: Event, rules: Rules)
    requires a in w.nodes && GoodNode(w.nodes[a], w.ops) && OpsPlaced(w) && Enabled(w, a, e)
    ensures OpsPlaced(Next(w, a, e, rules))
  {
    var w' := Next(w, a, e, rules);
    ClockGrows(w, a, e, rules);
    forall op | op in w'.ops
      ensures Placed(w', op)
    {
      if op in w.ops { PlacedKept(w, w', op); } else { MadePlaced(w, a, e, rules); }
    }
  }

  /** Every step of every editor keeps the invariant. */
  lemma StepKeeps(w: World, a: string, e: Event, rules: Rules)
    requires Inv(w) && Enabled(w, a, e)
    ensures Inv(Next(w, a, e, rules))
  {
    NodesKept(w, a, e, rules);
    OpsKept(w, a, e, rules);
    if !e.Arrive? { CoherentKept(w, a, e); }
  }

  lemma NodesKept(w: World, a: string, e: Event, rules: Rules)
    requires NodesGood(w) && OpsPlaced(w) && Enabled(w, a, e)
    ensures NodesGood(Next(w, a, e, rules))
  {
    var w' := Next(w, a, e, rules);
    NodeKept(w, a, e, rules);
    forall b | b in w'.nodes
      ensures GoodNode(w'.nodes[b], w'.ops)
    {
      if b != a { assert w'.nodes[b] == w.nodes[b] && w.ops <= w'.ops; }
    }
  }

  /** The editors and the steps of a run, in the order they happen. */
  ghost predicate Run(w: World, steps: seq<(string, Event)>, w': World, rules: Rules)
    decreases |steps|
  {
    if steps == [] then w' == w
    else
      && Enabled(w, steps[0].0, steps[0].1)
      && Run(Next(w, steps[0].0, steps[0].1, rules), steps[1..], w', rules)
  }

  lemma {:induction false} RunKeeps(w: World, steps: seq<(string, Event)>, w': World, rules: Rules)
    requires Inv(w) && Run(w, steps, w', rules)
    ensures Inv(w')
    decreases |steps|
  {
    if steps != [] {
      StepKeeps(w, steps[0].0, steps[0].1, rules);
      RunKeeps(Next(w, steps[0].0, steps[0].1, rules), steps[1..], w', rules);
    }
  }

  /** One more step at the end of a run. */
  lemma {:induction false} RunSnoc(w: World, steps: seq<(string, Event)>, w': World, a: string, e: Event, rules: Rules)
    requires Run(w, steps, w', rules) && Enabled(w', a, e)
    ensures Run(w, steps + [(a, e)], Next(w', a, e, rules), rules)
    decreases |steps|
  {
    hide Enabled, Next;
    var all := steps + [(a, e)];
    if steps == [] {
      assert all[1..] == [];
    } else {
      RunSnoc(Next(w, steps[0].0, steps[0].1, rules), steps[1..], w', a, e, rules);
      assert all[1..] == steps[1..] + [(a, e)];
    }
  }

  lemma StartGood(w: World)
    requires Start(w)
    ensures Inv(w)
  {
    ReflectsItself(EMPTY);
    assert FullSet(EMPTY) == {};
  }

  lemma Agreement(w: World, a: string, b: string)
    requires Inv(w) && a in w.nodes && b in w.nodes && w.nodes[a].known == w.nodes[b].known
    ensures SameContent(w.nodes[a].doc, w.nodes[b].doc)
  {
    var known := w.nodes[a].known;
    assert GoodNode(w.nodes[a], w.ops) && GoodNode(w.nodes[b], w.ops);
    SubsetCoherent(known, w.ops);
    OneOutcome(w.nodes[a].doc, w.nodes[b].doc, known);
  }

  lemma SubsetCoherent(some: set<Op>, all: set<Op>)
    requires some <= all && Coherent(all)
    ensures Coherent(some)
  {
  }

  /** In every run, two editors that made or accepted the same ops hold the same document and show the same list. */
  lemma Convergence(w: World, steps: seq<(string, Event)>, w': World, rules: Rules, a: string, b: string)
    requires Start(w) && Run(w, steps, w', rules)
    requires a in w'.nodes && b in w'.nodes && w'.nodes[a].known == w'.nodes[b].known
    ensures SameContent(w'.nodes[a].doc, w'.nodes[b].doc)
    ensures forall x, y :: MayShow(w'.nodes[a].doc, x) && MayShow(w'.nodes[b].doc, y) ==> x == y
  {
    hide MayShow, SameContent;
    StartGood(w);
    RunKeeps(w, steps, w', rules);
    Agreement(w', a, b);
    SameVisible(w'.nodes[a].doc, w'.nodes[b].doc);
  }

  /** Deleted stays deleted, whatever happens later. */
  lemma {:induction false} DeadStaysDead(w: World, steps: seq<(string, Event)>, w': World, rules: Rules,
      a: string, id: string)
    requires Inv(w) && Run(w, steps, w', rules)
    requires a in w.nodes && id in w.nodes[a].doc.dead
    ensures a in w'.nodes && id in w'.nodes[a].doc.dead && id !in w'.nodes[a].doc.stickers
    decreases |steps|
  {
    if steps == [] {
      assert GoodNode(w.nodes[a], w.ops);
    } else {
      DeadStep(w, steps[0].0, steps[0].1, rules, a, id);
      StepKeeps(w, steps[0].0, steps[0].1, rules);
      DeadStaysDead(Next(w, steps[0].0, steps[0].1, rules), steps[1..], w', rules, a, id);
    }
  }

  lemma DeadStep(w: World, b: string, e: Event, rules: Rules, a: string, id: string)
    requires Enabled(w, b, e) && a in w.nodes && id in w.nodes[a].doc.dead
    ensures a in Next(w, b, e, rules).nodes && id in Next(w, b, e, rules).nodes[a].doc.dead
  {
  }
}
