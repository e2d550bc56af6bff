/** Why it is enough to send the latest op of each thing: the coalescing outbox loses nothing. */
module CollabOutbox {
  import opened CollabState

  /** The key an op waits under; one op per field, sticker and tombstone. */
  function Slot(op: Op): string {
    match op
    case SetField(key, _, _) => "f" + key
    case Put(id, _, _) => "s" + id
    case Drop(id, _) => "d" + id
  }

  lemma SlotKinds(o: Op, p: Op)
    requires Slot(o) == Slot(p)
    ensures match o
            case SetField(key, _, _) => p.SetField? && p.key == key
            case Put(id, _, _) => p.Put? && p.id == id
            case Drop(id, _) => p.Drop? && p.id == id
  {
    assert Slot(o)[0] == Slot(p)[0] && Slot(o)[1..] == Slot(p)[1..];
  }

  /** Whoever gets `p` does not need `o`. */
  predicate Dominates(p: Op, o: Op) {
    match o
    case SetField(key, _, at) => p.SetField? && p.key == key && !Wins(at, p.at)
    case Put(id, _, at) => (p.Put? && p.id == id && !Wins(at, p.at)) || (p.Drop? && p.id == id)
    case Drop(id, l) => p.Drop? && p.id == id && l <= p.l
  }

  lemma DominatesSelf(o: Op)
    ensures Dominates(o, o)
  {
    if !o.Drop? { WinsIrreflexive(o.at); }
  }

  lemma DominatesTransitive(q: Op, p: Op, o: Op)
    requires Dominates(q, p) && Dominates(p, o)
    ensures Dominates(q, o)
  {
    if !o.Drop? && !p.Drop? && !q.Drop? { WinsTransitive(o.at, p.at, q.at); }
  }

  /** Everything wanted is covered by something at hand. */
  ghost predicate Stands(have: set<Op>, want: set<Op>) {
    forall o :: o in want ==> exists p :: p in have && Dominates(p, o)
  }

  lemma CoversDominated(d: Doc, p: Op, o: Op)
    requires Covers(d, p) && Dominates(p, o)
    ensures Covers(d, o)
  {
    match o
    case SetField(key, _, at) => WinsTransitive(at, p.at, d.fields[key].at);
    case Put(id, _, at) => if id !in d.dead { WinsTransitive(at, p.at, d.stickers[id].at); }
    case Drop(_, _) =>
  }

  /** An op of the state that some other op dominates is that op. */
  lemma OnlyItself(d: Doc, e: Op, p: Op, all: set<Op>)
    requires Coherent(all) && e in all && p in all
    requires d.stickers.Keys !! d.dead.Keys && e in FullSet(d) && Covers(d, p) && Dominates(p, e)
    ensures p == e
  {
    match e
    case SetField(_, _, at) => WinsTotal(at, p.at);
    case Put(_, _, at) => WinsTotal(at, p.at);
    case Drop(_, _) =>
  }

  lemma SentToQueued(d: Doc, base: set<Op>, sent: set<Op>, queued: set<Op>)
    requires sent <= queued && Stands(sent, queued) && Reflects(d, base + sent)
    ensures Reflects(d, base + queued)
  {
    hide Covers, FullSet, Dominates;
    forall o | o in base + queued
      ensures Covers(d, o)
    {
      if o in queued && o !in base {
        var p :| p in sent && Dominates(p, o);
        assert p in base + sent;
        CoversDominated(d, p, o);
      }
    }
    assert base + sent <= base + queued;
  }

  lemma QueuedToSent(d: Doc, base: set<Op>, sent: set<Op>, queued: set<Op>)
    requires sent <= queued && Stands(sent, queued) && Coherent(base + queued) && Reflects(d, base + queued)
    ensures Reflects(d, base + sent)
  {
    hide Coherent, Covers, FullSet, Dominates;
    forall e | e in FullSet(d)
      ensures e in base + sent
    {
      assert e in base + queued;
      if e !in base {
        var p :| p in sent && Dominates(p, e);
        assert p in base + queued;
        OnlyItself(d, e, p, base + queued);
      }
    }
    assert base + sent <= base + queued;
  }

  /**
    For every state: being the outcome of what was sent is the same as being the outcome of all that was ever queued.
   */
  lemma SameMeaning(d: Doc, base: set<Op>, sent: set<Op>, queued: set<Op>)
    requires sent <= queued && Stands(sent, queued) && Coherent(base + queued)
    ensures Reflects(d, base + sent) <==> Reflects(d, base + queued)
  {
    hide Reflects, Stands, Coherent;
    if Reflects(d, base + sent) { SentToQueued(d, base, sent, queued); }
    if Reflects(d, base + queued) { QueuedToSent(d, base, sent, queued); }
  }

  /** A peer that got every op of the drained outbox is where it would be had it got every op ever queued. */
  lemma DrainedPeer(d: Doc, e: Doc, base: set<Op>, sent: set<Op>, queued: set<Op>)
    requires sent <= queued && Stands(sent, queued) && Coherent(base + queued)
    requires Reflects(d, base + sent) && Reflects(e, base + queued)
    ensures SameContent(d, e) && forall x, y :: MayShow(d, x) && MayShow(e, y) ==> x == y
  {
    hide Reflects, Stands, Coherent, SameContent, MayShow;
    SameMeaning(d, base, sent, queued);
    OneOutcome(d, e, base + queued);
    SameVisible(d, e);
  }

  // ---------- the steps of the outbox ----------

  ghost predicate Tidy(outbox: map<string, Op>, order: seq<string>) {
    forall k :: k in outbox ==> Slot(outbox[k]) == k && k in order
  }

  lemma StandsQueued(sent: set<Op>, outbox: map<string, Op>, queued: set<Op>, op: Op)
    requires Stands(sent + outbox.Values, queued)
    requires Slot(op) in outbox ==> Dominates(op, outbox[Slot(op)])
    ensures Stands(sent + outbox[Slot(op) := op].Values, queued + {op})
  {
    var outbox' := outbox[Slot(op) := op];
    assert outbox'[Slot(op)] == op;
    assert op in outbox'.Values;
    forall o | o in queued + {op}
      ensures exists p :: p in sent + outbox'.Values && Dominates(p, o)
    {
      if o == op {
        DominatesSelf(op);
        assert op in sent + outbox'.Values && Dominates(op, o);
      } else {
        var p :| p in sent + outbox.Values && Dominates(p, o);
        if p in sent {
          assert p in sent + outbox'.Values;
        } else {
          var k :| k in outbox && outbox[k] == p;
          if k == Slot(op) {
            DominatesTransitive(op, p, o);
            assert op in sent + outbox'.Values;
          } else {
            assert outbox'[k] == p;
            assert p in sent + outbox'.Values;
          }
        }
      }
    }
  }

  /** Deleting a sticker takes its pending op out of the outbox: the tombstone stands for it. */
  lemma StandsKilled(sent: set<Op>, outbox: map<string, Op>, order: seq<string>, queued: set<Op>, id: string, l: nat)
    requires Stands(sent + outbox.Values, queued) && Tidy(outbox, order)
    ensures Stands(sent + (outbox - {"s" + id}).Values + {Drop(id, l)}, queued)
  {
    var rest := outbox - {"s" + id};
    forall o | o in queued
      ensures exists p :: p in sent + rest.Values + {Drop(id, l)} && Dominates(p, o)
    {
      var p :| p in sent + outbox.Values && Dominates(p, o);
      if p in sent {
        assert p in sent + rest.Values + {Drop(id, l)};
      } else {
        var k :| k in outbox && outbox[k] == p;
        if k == "s" + id {
          SlotKinds(p, Put(id, "", Stamp(0, "")));
          assert Dominates(Drop(id, l), o);
        } else {
          assert rest[k] == p;
          assert p in sent + rest.Values + {Drop(id, l)};
        }
      }
    }
  }

  lemma StandsTaken(sent: set<Op>, outbox: map<string, Op>, queued: set<Op>, k: string)
    requires Stands(sent + outbox.Values, queued) && k in outbox
    ensures Stands(sent + {outbox[k]} + (outbox - {k}).Values, queued)
  {
    var rest := outbox - {k};
    forall p | p in sent + outbox.Values
      ensures p in sent + {outbox[k]} + rest.Values
    {
      if p !in sent {
        var j :| j in outbox && outbox[j] == p;
        if j != k { assert rest[j] == p; }
      }
    }
  }
}
