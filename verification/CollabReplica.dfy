/** One editor's side of the sync, as it runs in the page: the document, the outbox and the send rate. */
module CollabReplica {
  import opened Options
  import opened CollabState
  import opened CollabRuns
  import opened CollabExchange
  import opened CollabOutbox
  import opened CollabPace

  const MAX_FRAME := 16384
  const MAX_OPS := 512
  const FULL_MIN_MS := 2000.0

  datatype Frame = Hello | Ops(ops: seq<Op>) | Digest

  /** The room ops take up in a frame: each one's text and a comma, after 80 bytes of envelope. */
  function FrameSize(size: Op -> nat, ops: seq<Op>): nat {
    if ops == [] then 80 else FrameSize(size, ops[..|ops| - 1]) + size(ops[|ops| - 1]) + 1
  }

  class Replica {
    const actor: string
    const rules: Rules
    /** The bytes of an op's JSON text. */
    const size: Op -> nat

    var fields: map<string, Entry>
    var stickers: map<string, Entry>
    var dead: map<string, nat>
    var clock: nat
    var outbox: map<string, Op>
    var order: seq<string>
    var pace: Pace
    var lastFull: Option<real>

    /** Every op made here or accepted, every op ever queued, every op handed to a frame. */
    ghost var known: set<Op>
    ghost var queued: set<Op>
    ghost var sent: set<Op>

    ghost function View(): Doc
      reads this
    {
      Doc(fields, stickers, dead, clock)
    }

    ghost predicate ValidDoc()
      reads this
    {
      Reflects(View(), known) && WellStamped(View()) && queued <= known
    }

    ghost predicate ValidOutbox()
      reads this
    {
      && sent <= queued
      && outbox.Values <= queued
      && Tidy(outbox, order)
      && Stands(sent + outbox.Values, queued)
    }

    ghost predicate Valid()
      reads this
    {
      ValidDoc() && ValidOutbox()
    }

    constructor (actor: string, rules: Rules, size: Op -> nat)
      ensures Valid() && View() == EMPTY && known == queued == sent == {} && pace == FRESH
      ensures this.actor == actor && this.rules == rules && this.size == size
    {
      this.actor, this.rules, this.size := actor, rules, size;
      fields, stickers, dead, clock := map[], map[], map[], 0;
      outbox, order, pace, lastFull := map[], [], FRESH, None;
      known, queued, sent := {}, {}, {};
      new;
      ReflectsItself(EMPTY);
      assert FullSet(EMPTY) == {};
    }

    // ---------- local edits ----------

    /** Puts an op into the outbox, over a pending one of the same thing. */
    method Queue(op: Op)
      requires Valid() && op in known
      requires Slot(op) in outbox ==> Dominates(op, outbox[Slot(op)])
      modifies this`outbox, this`order, this`queued
      ensures Valid() && queued == old(queued) + {op} && outbox == old(outbox)[Slot(op) := op]
      ensures order == old(order) + if Slot(op) in old(outbox) then [] else [Slot(op)]
    {
      hide Stands, Reflects, WellStamped, Dominates;
      StandsQueued(sent, outbox, queued, op);
      if Slot(op) !in outbox { order := order + [Slot(op)]; }
      outbox := outbox[Slot(op) := op];
      queued := queued + {op};
    }

    method SetLocal(key: string, v: Value)
      requires Valid() && clock < MAX_CLOCK
      modifies this`fields, this`clock, this`known, this`outbox, this`order, this`queued
      ensures Valid() && View() == Edited(old(View()), SetOp(old(View()), actor, key, v))
      ensures known == old(known) + {SetOp(old(View()), actor, key, v)}
      ensures queued == old(queued) + {SetOp(old(View()), actor, key, v)}
    {
      hide Reflects, WellStamped, Stands, Tidy, Dominates;
      ghost var op := SetOp(View(), actor, key, v);
      NewestDominates(View(), op, outbox, order, known);
      WriteKept(View(), op, known);
      clock := clock + 1;
      var e := Entry(v, Stamp(clock, actor));
      fields := fields[key := e];
      known := known + {op};
      Queue(SetField(key, v, e.at));
    }

    method PutSticker(id: string, v: Value)
      requires Valid() && clock < MAX_CLOCK && id !in dead
      modifies this`stickers, this`clock, this`known, this`outbox, this`order, this`queued
      ensures Valid() && View() == Edited(old(View()), PutOp(old(View()), actor, id, v))
      ensures known == old(known) + {PutOp(old(View()), actor, id, v)}
      ensures queued == old(queued) + {PutOp(old(View()), actor, id, v)}
    {
      hide Reflects, WellStamped, Stands, Tidy, Dominates;
      ghost var op := PutOp(View(), actor, id, v);
      NewestDominates(View(), op, outbox, order, known);
      WriteKept(View(), op, known);
      clock := clock + 1;
      var e := Entry(v, Stamp(clock, actor));
      stickers := stickers[id := e];
      known := known + {op};
      Queue(Put(id, v, e.at));
    }

    method Kill(id: string)
      requires Valid() && clock < MAX_CLOCK && id in stickers
      modifies this`stickers, this`dead, this`clock, this`known, this`outbox, this`order, this`queued
      ensures Valid() && View() == Edited(old(View()), KillOp(old(View()), id))
      ensures known == old(known) + {KillOp(old(View()), id)}
      ensures queued == old(queued) + {KillOp(old(View()), id)}
    {
      hide Reflects, WellStamped, Stands, Tidy, Dominates;
      ghost var op := KillOp(View(), id);
      NewestDominates(View(), op, outbox, order, known);
      WriteKept(View(), op, known);
      clock, stickers, dead := clock + 1, stickers - {id}, dead[id := clock + 1];
      known := known + {op};
      QueueDrop(id, clock);
    }

    /** The tombstone takes the place of the sticker's pending op. */
    method QueueDrop(id: string, l: nat)
      requires Valid() && Drop(id, l) in known
      requires Slot(Drop(id, l)) in outbox ==> Dominates(Drop(id, l), outbox[Slot(Drop(id, l))])
      modifies this`outbox, this`order, this`queued
      ensures Valid() && queued == old(queued) + {Drop(id, l)}
      ensures outbox == (old(outbox) - {"s" + id})["d" + id := Drop(id, l)]
    {
      hide Reflects, WellStamped, Stands, Tidy, Dominates;
      KillOutbox(sent, outbox, order, queued, id, l);
      outbox := outbox - {"s" + id};
      if "d" + id !in outbox { order := order + ["d" + id]; }
      outbox := outbox["d" + id := Drop(id, l)];
      queued := queued + {Drop(id, l)};
    }

    // ---------- receiving ----------

    method Apply(op: Op) returns (ok: bool)
      requires Valid()
      modifies this`fields, this`stickers, this`dead, this`clock, this`known
      ensures Valid() && ok == Accepts(old(View()), op, rules) && View() == Receive(old(View()), op, rules)
      ensures known == old(known) + (if ok then {op} else {})
    {
      hide Reflects, WellStamped, Stands, Tidy, Accepts, Applied;
      ok := Accepts(Doc(fields, stickers, dead, clock), op, rules);
      if !ok { return; }
      ReceiveKept(View(), op, known, rules);
      Write(op);
      known := known + {op};
    }

    /** An op that passed the checks, written into the fields in place. */
    method Write(op: Op)
      modifies this`fields, this`stickers, this`dead, this`clock
      ensures View() == Applied(old(View()), op)
    {
      hide Wins;
      match op {
      case SetField(key, v, at) =>
        if clock < at.l { clock := at.l; }
        if key !in fields || Wins(at, fields[key].at) { fields := fields[key := Entry(v, at)]; }
      case Put(id, v, at) =>
        if id !in dead {
          if clock < at.l { clock := at.l; }
          if id !in stickers || Wins(at, stickers[id].at) { stickers := stickers[id := Entry(v, at)]; }
        }
      case Drop(id, l) =>
        if clock < l { clock := l; }
        stickers := stickers - {id};
        dead := dead[id := Max(if id in dead then dead[id] else 0, l)];
      }
    }

    /** The ops of one frame, each applied or counted as refused. */
    method ReceiveOps(ops: seq<Op>) returns (bad: nat)
      requires Valid()
      modifies this`fields, this`stickers, this`dead, this`clock, this`known
      ensures Valid() && View() == ReceiveAll(old(View()), ops, rules)
      ensures old(known) <= known <= old(known) + Elems(ops) && (bad == 0 ==> known == old(known) + Elems(ops))
    {
      bad := 0;
      for i := 0 to |ops|
        invariant Valid() && View() == ReceiveAll(old(View()), ops[..i], rules)
        invariant old(known) <= known <= old(known) + Elems(ops[..i])
        invariant (bad == 0 ==> known == old(known) + Elems(ops[..i]))
      {
        hide Valid, ValidDoc, ValidOutbox;
        assert ops[..i + 1][..i] == ops[..i];
        ElemsGrow(old(known), ops[..i + 1]);
        var ok := Apply(ops[i]);
        if !ok { bad := bad + 1; }
      }
      assert ops[..|ops|] == ops;
    }

    // ---------- full-state repair ----------

    /** Every entry of the state as an op, once. */
    method FullOps() returns (ops: seq<Op>)
      ensures Enumerates(ops, FullSet(View())) && Once(ops)
    {
      ops := [];
      var left := fields.Keys;
      while left != {}
        invariant left <= fields.Keys && Once(ops)
        invariant forall op :: op in ops <==>
          op.SetField? && op.key in fields && op.key !in left && Entry(op.v, op.at) == fields[op.key]
        decreases left
      {
        var k :| k in left;
        ops := ops + [SetField(k, fields[k].v, fields[k].at)];
        left := left - {k};
      }
      ghost var first := ops;
      left := stickers.Keys;
      while left != {}
        invariant left <= stickers.Keys && Once(ops)
        invariant forall op :: op in ops <==>
          op in first || (op.Put? && op.id in stickers && op.id !in left && Entry(op.v, op.at) == stickers[op.id])
        decreases left
      {
        var k :| k in left;
        ops := ops + [Put(k, stickers[k].v, stickers[k].at)];
        left := left - {k};
      }
      ghost var second := ops;
      left := dead.Keys;
      while left != {}
        invariant left <= dead.Keys && Once(ops)
        invariant forall op :: op in ops <==>
          op in second || (op.Drop? && op.id in dead && op.id !in left && op.l == dead[op.id])
        decreases left
      {
        var k :| k in left;
        ops := ops + [Drop(k, dead[k])];
        left := left - {k};
      }
    }

    /** The stickers on show: whatever order the keys come in, sorted by birth, the oldest ones. */
    method Showing() returns (shown: seq<string>)
      ensures MayShow(View(), shown) && shown == Visible(View())
    {
      var keys: seq<string> := [];
      var left := stickers.Keys;
      while left != {}
        invariant left <= stickers.Keys && Lists(keys, stickers.Keys - left)
        decreases left
      {
        var k :| k in left;
        assert stickers.Keys - (left - {k}) == stickers.Keys - left + {k};
        keys := keys + [k];
        left := left - {k};
      }
      assert stickers.Keys - left == stickers.Keys;
      var s := SortByBirth(keys);
      shown := Oldest(s);
      assert MayShow(View(), shown);
      ShowsVisible(View(), shown);
    }

    /** The other side's digest differs: everything is queued again, at most once in two seconds. */
    method AsksFull(now: real, differs: bool)
      requires Valid()
      modifies this`lastFull, this`outbox, this`order, this`queued
      ensures Valid()
      ensures if differs && (old(lastFull).None? || now - old(lastFull).value >= FULL_MIN_MS)
        then queued == old(queued) + FullSet(View()) && lastFull == Some(now)
        else queued == old(queued) && outbox == old(outbox) && order == old(order) && lastFull == old(lastFull)
    {
      hide Reflects, WellStamped, Stands, Tidy, FullSet, Elems, Enumerates, Once;
      if !differs || (lastFull.Some? && now - lastFull.value < FULL_MIN_MS) { return; }
      lastFull := Some(now);
      var ops := FullOps();
      EnumeratedElems(ops, FullSet(View()));
      QueueAll(ops);
    }

    method QueueAll(ops: seq<Op>)
      requires Valid() && Enumerates(ops, FullSet(View()))
      modifies this`outbox, this`order, this`queued
      ensures Valid() && queued == old(queued) + Elems(ops)
    {
      hide Elems, Slot, FullSet, Dominates, Stands, Tidy, Reflects, WellStamped;
      NoElems(queued);
      for i := 0 to |ops|
        invariant Valid() && queued == old(queued) + Elems(ops[..i])
      {
        hide Valid, ValidDoc, ValidOutbox;
        assert ops[i] in ops;
        Requeue(ops[i]);
        assert ops[..i + 1][..i] == ops[..i];
        ElemsGrow(old(queued), ops[..i + 1]);
        Queue(ops[i]);
      }
      assert ops[..|ops|] == ops;
    }

    lemma Requeue(op: Op)
      requires Valid() && op in FullSet(View())
      ensures op in known && (Slot(op) in outbox ==> Dominates(op, outbox[Slot(op)]))
    {
      RequeueDominates(View(), op, outbox, order, known);
    }

    // ---------- sending ----------

    /** Would the front of the queue go into an empty frame? A key whose op was removed always does. */
    predicate FrontFits()
      reads this
    {
      order != [] && (order[0] in outbox ==> 80 + size(outbox[order[0]]) + 1 <= MAX_FRAME - 120)
    }

    /**
      The next frame's ops: from the front of the queue until the frame is full. What it takes leaves the queue, the
      rest stays as it is; it takes something exactly when the front fits, so one op above the byte budget blocks the
      queue.
     */
    method TakeOps() returns (ops: seq<Op>)
      requires Valid()
      modifies this`outbox, this`order, this`sent
      ensures Valid() && sent == old(sent) + Elems(ops)
      ensures |ops| <= MAX_OPS && FrameSize(size, ops) <= Max(80, MAX_FRAME - 120)
      ensures order == [] || |ops| == MAX_OPS
        || (order[0] in outbox && FrameSize(size, ops) + size(outbox[order[0]]) + 1 > MAX_FRAME - 120)
      ensures order == [] ==> outbox == map[] && Stands(sent, queued)
      ensures Taken(old(outbox), old(order), outbox, order)
      ensures |order| < |old(order)| <==> old(FrontFits())
    {
      hide Reflects, WellStamped, Stands, Tidy, Elems, Taken, FrameSize;
      ops := [];
      NoElems(old(sent));
      NothingTaken(outbox, order);
      NoFrame(size);
      var used := 80;
      while order != [] && |ops| < MAX_OPS
        invariant Valid() && sent == old(sent) + Elems(ops)
        invariant |ops| <= MAX_OPS && used == FrameSize(size, ops) && used <= Max(80, MAX_FRAME - 120)
        invariant Taken(old(outbox), old(order), outbox, order) && |order| <= |old(order)|
        invariant |order| == |old(order)| ==> order == old(order) && outbox == old(outbox) && ops == [] && used == 80
        invariant |order| < |old(order)| ==> old(FrontFits())
        decreases |order|
      {
        hide Valid, ValidDoc, ValidOutbox;
        if order[0] in outbox && used + size(outbox[order[0]]) + 1 > MAX_FRAME - 120 { break; }
        MoreTaken(old(outbox), old(order), outbox, order);
        var op := TakeFront();
        if op.Some? {
          FrameGrows(size, old(sent), ops, op.value);
          ops, used := ops + [op.value], used + size(op.value) + 1;
        }
      }
      if order == [] { Drained(sent, outbox, order, queued); }
    }

    /** Takes the first key off the queue, and its op if it still has one. */
    method TakeFront() returns (op: Option<Op>)
      requires Valid() && order != []
      modifies this`outbox, this`order, this`sent
      ensures Valid() && order == old(order)[1..] && outbox == old(outbox) - {old(order)[0]}
      ensures op == if old(order)[0] in old(outbox) then Some(old(outbox)[old(order)[0]]) else None
      ensures sent == old(sent) + if op.Some? then {op.value} else {}
    {
      hide Reflects, WellStamped, Stands, Tidy;
      var k := order[0];
      op := None;
      if k in outbox {
        TakenKept(sent, outbox, order, queued);
        op := Some(outbox[k]);
        sent := sent + {outbox[k]};
        outbox := outbox - {k};
      } else {
        SkippedKept(outbox, order);
        assert outbox - {k} == outbox;
      }
      order := order[1..];
    }

    /**
      The whole queue, frame by frame, to the other editor. When each op fits into a frame and none is refused, the
      other one ends as if it had got every op ever queued here, however many were replaced or taken back on the way.
     */
    method DrainTo(peer: Replica) returns (bad: nat, stuck: bool)
      requires Valid() && peer.Valid() && this != peer
      modifies this`outbox, this`order, this`sent
      modifies peer`fields, peer`stickers, peer`dead, peer`clock, peer`known
      ensures Valid() && peer.Valid() && old(sent) <= sent
      ensures !stuck ==> order == [] && outbox == map[] && Stands(sent, queued)
      ensures (forall k :: k in old(outbox) ==> 80 + size(old(outbox)[k]) + 1 <= MAX_FRAME - 120) ==> !stuck
      ensures old(peer.known) <= peer.known
      ensures bad == 0 && old(sent) <= old(peer.known) ==> peer.known == old(peer.known) + sent
      ensures bad == 0 && !stuck && old(sent) <= old(peer.known) && Coherent(old(peer.known) + queued) ==>
        Reflects(peer.View(), old(peer.known) + queued)
    {
      hide Reflects, WellStamped, Stands, Tidy, Elems, Taken, Coherent, FrameSize;
      bad, stuck := 0, false;
      ghost var went: set<Op> := {};
      if order == [] { Drained(sent, outbox, order, queued); }
      while order != [] && !stuck
        invariant Valid() && peer.Valid() && sent == old(sent) + went && old(peer.known) <= peer.known
        invariant bad == 0 ==> peer.known == old(peer.known) + went
        invariant forall k :: k in outbox ==> k in old(outbox) && outbox[k] == old(outbox)[k]
        invariant stuck ==> !FrontFits() && order != []
        invariant order == [] ==> outbox == map[] && Stands(sent, queued)
        decreases !stuck, |order|
      {
        var refused: nat;
        ghost var more: set<Op>;
        refused, stuck, more := PassFrame(peer);
        bad, went := bad + refused, went + more;
      }
      if bad == 0 && !stuck && old(sent) <= old(peer.known) && Coherent(old(peer.known) + queued) {
        assert old(peer.known) + went == old(peer.known) + sent;
        SameMeaning(peer.View(), old(peer.known), sent, queued);
      }
    }

    /** One frame of the queue, applied at the other editor. */
    method PassFrame(peer: Replica) returns (refused: nat, stuck: bool, ghost went: set<Op>)
      requires Valid() && peer.Valid() && this != peer && order != []
      modifies this`outbox, this`order, this`sent
      modifies peer`fields, peer`stickers, peer`dead, peer`clock, peer`known
      ensures Valid() && peer.Valid() && sent == old(sent) + went && old(peer.known) <= peer.known
      ensures refused == 0 ==> peer.known == old(peer.known) + went
      ensures forall k :: k in outbox ==> k in old(outbox) && outbox[k] == old(outbox)[k]
      ensures if stuck then order == old(order) && outbox == old(outbox) && !FrontFits() else |order| < |old(order)|
      ensures order == [] ==> outbox == map[] && Stands(sent, queued)
    {
      hide Reflects, WellStamped, Stands, Tidy, Elems, Taken, FrameSize;
      var length := |order|;
      var ops := TakeOps();
      TakenPart(old(outbox), old(order), outbox, order);
      went := Elems(ops);
      stuck := |order| == length;
      refused := peer.ReceiveOps(ops);
    }

    /** One look at the clock: refills the rate, and sends at most one frame. */
    method Tick(now: real, hasMeta: bool) returns (frame: Option<Frame>)
      requires Valid()
      modifies this`pace, this`outbox, this`order, this`sent
      ensures Valid() && old(sent) <= sent
      ensures pace == Ticked(old(pace), now, old(order) != [] && hasMeta)
      ensures frame.Some? <==> Sends(old(pace), now, old(order) != [] && hasMeta)
      ensures frame.Some? ==> (frame.value.Hello? <==> old(pace).helloDue)
      ensures frame.Some? ==> (frame.value.Ops? <==> !old(pace).helloDue && old(order) != [] && hasMeta)
      ensures frame.Some? && frame.value.Ops? ==> sent == old(sent) + Elems(frame.value.ops)
      ensures frame.None? || !frame.value.Ops? ==> sent == old(sent) && outbox == old(outbox) && order == old(order)
    {
      hide Reflects, WellStamped, Stands, Tidy, Elems, Taken, FrameSize;
      var wants := order != [] && hasMeta;
      frame := None;
      if Sends(pace, now, wants) {
        if pace.helloDue {
          frame := Some(Hello);
        } else if wants {
          var ops := TakeOps();
          frame := Some(Ops(ops));
        } else {
          frame := Some(Digest);
        }
      }
      pace := Ticked(pace, now, wants);
    }

    method Connected(now: real, hasMeta: bool) returns (frame: Option<Frame>)
      requires Valid()
      modifies this`pace, this`outbox, this`order, this`sent
      ensures Valid() && old(sent) <= sent
      ensures pace == Ticked(Opened(old(pace)), now, old(order) != [] && hasMeta)
      ensures frame.Some? <==> Sends(Opened(old(pace)), now, old(order) != [] && hasMeta)
      ensures frame.Some? ==> frame.value == Hello
      ensures sent == old(sent) && outbox == old(outbox) && order == old(order)
    {
      hide Reflects, WellStamped, Stands, Tidy;
      pace := Opened(pace);
      frame := Tick(now, hasMeta);
    }
  }

  ghost predicate Once(ops: seq<Op>) { forall i, j :: 0 <= i < j < |ops| ==> ops[i] != ops[j] }

  /** The queue lost a piece of its front, and the outbox just the ops waiting there. */
  ghost predicate Taken(outbox: map<string, Op>, order: seq<string>, outbox': map<string, Op>, order': seq<string>) {
    && |order'| <= |order| && order' == order[|order| - |order'|..]
    && (forall k :: k in outbox' <==> k in outbox && k !in order[..|order| - |order'|])
    && (forall k :: k in outbox' ==> outbox'[k] == outbox[k])
  }

  method SortByBirth(keys: seq<string>) returns (s: seq<string>)
    ensures SortOf(s, keys)
  {
    s := [];
    for i := 0 to |keys|
      invariant SortOf(s, keys[..i])
    {
      assert keys[..i + 1] == keys[..i] + [keys[i]];
      s := InsertByBirth(s, keys[i]);
    }
    assert keys[..|keys|] == keys;
  }

  /** Puts a key before the first younger one. */
  method InsertByBirth(s: seq<string>, k: string) returns (r: seq<string>)
    requires forall i, j :: 0 <= i < j < |s| ==> !ByBirth(s[j], s[i])
    ensures multiset(r) == multiset(s + [k]) && forall i, j :: 0 <= i < j < |r| ==> !ByBirth(r[j], r[i])
  {
    hide ByBirth;
    var p := 0;
    while p < |s| && !ByBirth(k, s[p])
      invariant 0 <= p <= |s| && forall i :: 0 <= i < p ==> !ByBirth(k, s[i])
    {
      p := p + 1;
    }
    r := s[..p] + [k] + s[p..];
    assert s == s[..p] + s[p..];
    forall j | p <= j < |s|
      ensures !ByBirth(s[j], k)
    {
      if j == p { ByBirthAsymmetric(k, s[p]); } else { YoungerStays(k, s[p], s[j]); }
    }
  }

  lemma YoungerStays(k: string, a: string, b: string)
    requires ByBirth(k, a) && !ByBirth(b, a)
    ensures !ByBirth(b, k)
  {
    if ByBirth(b, k) { ByBirthTransitive(b, k, a); }
  }

  // ---------- what the methods rely on ----------

  lemma NoFrame(size: Op -> nat)
    ensures FrameSize(size, []) == 80
  {
  }

  lemma FrameGrows(size: Op -> nat, base: set<Op>, ops: seq<Op>, op: Op)
    ensures FrameSize(size, ops + [op]) == FrameSize(size, ops) + size(op) + 1
    ensures base + Elems(ops + [op]) == base + Elems(ops) + {op}
  {
    assert (ops + [op])[..|ops|] == ops;
    ElemsGrow(base, ops + [op]);
  }

  lemma NothingTaken(outbox: map<string, Op>, order: seq<string>)
    ensures Taken(outbox, order, outbox, order)
  {
  }

  lemma MoreTaken(outbox: map<string, Op>, order: seq<string>, outbox': map<string, Op>, order': seq<string>)
    requires Taken(outbox, order, outbox', order') && order' != []
    ensures Taken(outbox, order, outbox' - {order'[0]}, order'[1..])
  {
    var n := |order| - |order'|;
    assert order[..n + 1] == order[..n] + [order'[0]];
    forall k
      ensures k in outbox' - {order'[0]} <==> k in outbox && k !in order[..n + 1]
    {
    }
  }

  lemma TakenPart(outbox: map<string, Op>, order: seq<string>, outbox': map<string, Op>, order': seq<string>)
    requires Taken(outbox, order, outbox', order')
    ensures |order'| <= |order| && forall k :: k in outbox' ==> k in outbox && outbox'[k] == outbox[k]
    ensures |order'| == |order| ==> order' == order && outbox' == outbox
  {
  }

  lemma NewestDominates(d: Doc, op: Op, outbox: map<string, Op>, order: seq<string>, known: set<Op>)
    requires Reflects(d, known) && WellStamped(d) && outbox.Values <= known && Tidy(outbox, order)
    requires (if op.Drop? then op.l else op.at.l) > d.clock
    requires op.Put? ==> op.id !in d.dead
    ensures Slot(op) in outbox ==> Dominates(op, outbox[Slot(op)])
  {
    if Slot(op) in outbox {
      var o := outbox[Slot(op)];
      assert o in outbox.Values && Covers(d, o);
      SlotKinds(op, o);
    }
  }

  lemma WriteKept(d: Doc, op: Op, known: set<Op>)
    requires Reflects(d, known) && WellStamped(d)
    requires d.clock < (if op.Drop? then op.l else op.at.l) <= MAX_CLOCK
    requires op.Put? ==> op.id !in d.dead
    ensures Reflects(Edited(d, op), known + {op}) && WellStamped(Edited(d, op))
  {
    EditedIsApplied(d, op);
    AppliedReflects(d, op, known);
    StampsKept(d, op);
  }

  lemma ReceiveKept(d: Doc, op: Op, known: set<Op>, rules: Rules)
    requires Reflects(d, known) && WellStamped(d) && Accepts(d, op, rules)
    ensures Reflects(Applied(d, op), known + {op}) && WellStamped(Applied(d, op))
  {
    AppliedReflects(d, op, known);
    StampsKept(d, op);
  }

  lemma RequeueDominates(d: Doc, op: Op, outbox: map<string, Op>, order: seq<string>, known: set<Op>)
    requires Reflects(d, known) && outbox.Values <= known && Tidy(outbox, order) && op in FullSet(d)
    ensures op in known && (Slot(op) in outbox ==> Dominates(op, outbox[Slot(op)]))
  {
    if Slot(op) in outbox {
      var o := outbox[Slot(op)];
      assert o in outbox.Values && Covers(d, o);
      SlotKinds(op, o);
    }
  }

  lemma KillOutbox(sent: set<Op>, outbox: map<string, Op>, order: seq<string>, queued: set<Op>, id: string, l: nat)
    requires Stands(sent + outbox.Values, queued) && Tidy(outbox, order) && outbox.Values <= queued
    requires "d" + id in outbox ==> Dominates(Drop(id, l), outbox["d" + id])
    ensures var o := (outbox - {"s" + id})["d" + id := Drop(id, l)];
            Stands(sent + o.Values, queued + {Drop(id, l)}) && o.Values <= queued + {Drop(id, l)} && "s" + id !in o
    ensures Tidy((outbox - {"s" + id})["d" + id := Drop(id, l)], if "d" + id in outbox - {"s" + id} then order
      else order + ["d" + id])
  {
    hide Stands, Tidy, Dominates;
    var rest := outbox - {"s" + id};
    var op := Drop(id, l);
    assert Slot(op) == "d" + id && ("s" + id)[0] != ("d" + id)[0];
    StandsKilled(sent, outbox, order, queued, id, l);
    assert sent + rest.Values + {op} == (sent + {op}) + rest.Values;
    StandsQueued(sent + {op}, rest, queued, op);
    var o := rest[Slot(op) := op];
    assert o[Slot(op)] == op && op in o.Values;
    assert (sent + {op}) + o.Values == sent + o.Values;
    RestValues(outbox, "s" + id, "d" + id, op);
    KillTidy(outbox, order, id, l);
  }

  lemma KillTidy(outbox: map<string, Op>, order: seq<string>, id: string, l: nat)
    requires Tidy(outbox, order)
    ensures Tidy((outbox - {"s" + id})["d" + id := Drop(id, l)], if "d" + id in outbox - {"s" + id} then order
      else order + ["d" + id])
  {
    assert Slot(Drop(id, l)) == "d" + id;
    hide Slot;
  }

  lemma RestValues(m: map<string, Op>, j: string, k: string, op: Op)
    ensures (m - {j})[k := op].Values <= m.Values + {op}
  {
    var n := (m - {j})[k := op];
    forall v | v in n.Values ensures v in m.Values + {op} {
      var i :| i in n && n[i] == v;
      if i != k { assert m[i] == v; }
    }
  }

  /** Taking the front op moves it from the outbox to what was sent. */
  lemma TakenKept(sent: set<Op>, outbox: map<string, Op>, order: seq<string>, queued: set<Op>)
    requires order != [] && order[0] in outbox && Tidy(outbox, order)
    requires Stands(sent + outbox.Values, queued) && outbox.Values <= queued && sent <= queued
    ensures var k := order[0]; var rest := outbox - {k};
            Tidy(rest, order[1..]) && Stands(sent + {outbox[k]} + rest.Values, queued) && rest.Values <= queued
              && sent + {outbox[k]} <= queued
  {
    var k := order[0];
    StandsTaken(sent, outbox, queued, k);
    assert outbox[k] in outbox.Values;
    forall v | v in (outbox - {k}).Values ensures v in outbox.Values {
      var i :| i in outbox - {k} && (outbox - {k})[i] == v;
      assert outbox[i] == v;
    }
  }

  lemma SkippedKept(outbox: map<string, Op>, order: seq<string>)
    requires order != [] && order[0] !in outbox && Tidy(outbox, order)
    ensures Tidy(outbox, order[1..])
  {
    assert order == [order[0]] + order[1..];
  }

  lemma Drained(sent: set<Op>, outbox: map<string, Op>, order: seq<string>, queued: set<Op>)
    requires order == [] && Tidy(outbox, order) && Stands(sent + outbox.Values, queued)
    ensures outbox == map[] && Stands(sent, queued)
  {
    assert outbox.Keys == {};
    assert outbox == map[];
    assert sent + outbox.Values == sent;
  }
}
