/**
  The replicated document of two people editing together: last writer wins per field by (clock, actor),
  stickers by id with permanent tombstones.
 */
module CollabState {
  import opened TextOrder

  const MAX_IDS := 400
  const LOCAL_IDS := 340
  const MAX_JUMP := 1000000
  const MAX_CLOCK := 1099511627776
  const MAX_STICKERS := 8

  /** A value as it travels: its JSON text. */
  type Value = string

  datatype Stamp = Stamp(l: nat, a: string)

  datatype Entry = Entry(v: Value, at: Stamp)

  datatype Op =
    | SetField(key: string, v: Value, at: Stamp)
    | Put(id: string, v: Value, at: Stamp)
    | Drop(id: string, l: nat)

  datatype Doc = Doc(fields: map<string, Entry>, stickers: map<string, Entry>, dead: map<string, nat>, clock: nat)

  /** The filters of the page, which this model takes as given: the values each field and each sticker may hold. */
  datatype Rules = Rules(field: (string, Value) -> bool, shape: Value -> bool)

  const EMPTY := Doc(map[], map[], map[], 0)

  // ---------- names and ids ----------

  predicate IsActor(s: string) {
    4 <= |s| <= 12 && forall i :: 0 <= i < |s| ==> IsDigit(s[i]) || 'a' <= s[i] <= 'z'
  }

  predicate IsStickerId(s: string) {
    exists k ::
      1 <= k <= 13 && k < |s| && s[k] == '.' && (forall i :: 0 <= i < k ==> IsDigit(s[i])) && IsActor(s[k + 1..])
  }

  function StickerId(n: nat, actor: string): string {
    Decimal(n) + "." + actor
  }

  function Birth(id: string): nat {
    ReadDigits(0, id)
  }

  predicate ByBirth(a: string, b: string) {
    Birth(a) < Birth(b) || (Birth(a) == Birth(b) && Below(a, b))
  }

  // ---------- stamps ----------

  /** The newer stamp; the source's `wins` against an entry that exists. */
  predicate Wins(s: Stamp, cur: Stamp) {
    s.l > cur.l || (s.l == cur.l && Below(cur.a, s.a))
  }

  lemma WinsTransitive(r: Stamp, s: Stamp, t: Stamp)
    requires !Wins(r, s) && !Wins(s, t)
    ensures !Wins(r, t)
  {
    if Wins(r, t) && r.l == t.l {
      assert r.l == s.l == t.l;
      if s.a == t.a || s.a == r.a {
      } else {
        BelowTotal(r.a, s.a);
        BelowTotal(s.a, t.a);
        BelowTransitive(t.a, r.a, s.a);
        BelowTransitive(s.a, t.a, s.a);
        BelowIrreflexive(s.a);
      }
    }
  }

  lemma WinsTotal(s: Stamp, t: Stamp)
    requires !Wins(s, t) && !Wins(t, s)
    ensures s == t
  {
    if s.a != t.a { BelowTotal(s.a, t.a); }
  }

  lemma WinsIrreflexive(s: Stamp)
    ensures !Wins(s, s)
  {
    BelowIrreflexive(s.a);
  }

  lemma WinsAsymmetric(s: Stamp, t: Stamp)
    requires Wins(s, t)
    ensures !Wins(t, s)
  {
    if Wins(t, s) { BelowTransitive(s.a, t.a, s.a); BelowIrreflexive(s.a); }
  }

  // ---------- receiving one op ----------

  function Ids(d: Doc): set<string> {
    d.stickers.Keys + d.dead.Keys
  }

  function IdCount(d: Doc): nat {
    |d.stickers.Keys| + |d.dead.Keys|
  }

  predicate OkClock(d: Doc, l: nat) {
    1 <= l <= MAX_CLOCK && l <= d.clock + MAX_JUMP
  }

  predicate OkStamp(d: Doc, at: Stamp) {
    OkClock(d, at.l) && IsActor(at.a)
  }

  predicate Accepts(d: Doc, op: Op, rules: Rules) {
    match op
    case SetField(key, v, at) => rules.field(key, v) && OkStamp(d, at)
    case Put(id, v, at) =>
      IsStickerId(id) && OkStamp(d, at) && rules.shape(v) && (id in d.dead || id in d.stickers || IdCount(d) < MAX_IDS)
    case Drop(id, l) =>
      IsStickerId(id) && OkClock(d, l) && (id in d.stickers || id in d.dead || IdCount(d) < MAX_IDS)
  }

  function Max(a: nat, b: nat): nat { if a < b then b else a }

  /** What `apply` does to the state once the op has passed the checks. */
  function Applied(d: Doc, op: Op): Doc {
    match op
    case SetField(key, v, at) =>
      var t := d.(clock := Max(d.clock, at.l));
      if key !in d.fields || Wins(at, d.fields[key].at) then t.(fields := d.fields[key := Entry(v, at)]) else t
    case Put(id, v, at) =>
      if id in d.dead then d
      else
        var t := d.(clock := Max(d.clock, at.l));
        if id !in d.stickers || Wins(at, d.stickers[id].at) then t.(stickers := d.stickers[id := Entry(v, at)]) else t
    case Drop(id, l) =>
      d.(clock := Max(d.clock, l), stickers := d.stickers - {id},
         dead := d.dead[id := Max(if id in d.dead then d.dead[id] else 0, l)])
  }

  function Receive(d: Doc, op: Op, rules: Rules): Doc {
    if Accepts(d, op, rules) then Applied(d, op) else d
  }

  function ReceiveAll(d: Doc, ops: seq<Op>, rules: Rules): Doc {
    if ops == [] then d else Receive(ReceiveAll(d, ops[..|ops| - 1], rules), ops[|ops| - 1], rules)
  }

  // ---------- editing here ----------

  function Tick(d: Doc): Doc {
    if d.clock < MAX_CLOCK then d.(clock := d.clock + 1) else d
  }

  function SetOp(d: Doc, actor: string, key: string, v: Value): Op { SetField(key, v, Stamp(Tick(d).clock, actor)) }

  function PutOp(d: Doc, actor: string, id: string, v: Value): Op { Put(id, v, Stamp(Tick(d).clock, actor)) }

  function KillOp(d: Doc, id: string): Op { Drop(id, Tick(d).clock) }

  /** The state after a local op: what the editor did is written whatever stood there. */
  function Edited(d: Doc, op: Op): Doc {
    match op
    case SetField(key, v, at) => d.(clock := at.l, fields := d.fields[key := Entry(v, at)])
    case Put(id, v, at) => d.(clock := at.l, stickers := d.stickers[id := Entry(v, at)])
    case Drop(id, l) => d.(clock := l, stickers := d.stickers - {id}, dead := d.dead[id := l])
  }

  /** Everything a full-state repair sends. */
  function FullSet(d: Doc): set<Op> {
    (set k | k in d.fields :: SetField(k, d.fields[k].v, d.fields[k].at)) +
    (set k | k in d.stickers :: Put(k, d.stickers[k].v, d.stickers[k].at)) +
    (set k | k in d.dead :: Drop(k, d.dead[k]))
  }

  // ---------- what a state knows ----------

  /** The op adds nothing to the state. */
  predicate Covers(d: Doc, op: Op) {
    match op
    case SetField(key, _, at) => key in d.fields && !Wins(at, d.fields[key].at)
    case Put(id, _, at) => id in d.dead || (id in d.stickers && !Wins(at, d.stickers[id].at))
    case Drop(id, l) => id in d.dead && l <= d.dead[id]
  }

  /** The state is the outcome of exactly these ops: it holds nothing else and none of them adds to it. */
  ghost predicate Reflects(d: Doc, known: set<Op>) {
    && d.stickers.Keys !! d.dead.Keys
    && FullSet(d) <= known
    && forall op :: op in known ==> Covers(d, op)
  }

  /** No stamp is used for two different values of the same thing. */
  ghost predicate Coherent(ops: set<Op>) {
    && (forall o, p :: o in ops && p in ops && o.SetField? && p.SetField? && o.key == p.key && o.at == p.at ==> o == p)
    && (forall o, p :: o in ops && p in ops && o.Put? && p.Put? && o.id == p.id && o.at == p.at ==> o == p)
  }

  predicate SameContent(d: Doc, e: Doc) {
    d.fields == e.fields && d.stickers == e.stickers && d.dead == e.dead
  }

  lemma ReflectsItself(d: Doc)
    requires d.stickers.Keys !! d.dead.Keys
    ensures Reflects(d, FullSet(d))
  {
    forall op | op in FullSet(d)
      ensures Covers(d, op)
    {
      match op
      case SetField(_, _, at) => WinsIrreflexive(at);
      case Put(_, _, at) => WinsIrreflexive(at);
      case Drop(_, _) =>
    }
  }

  /** One received op moves the state from the outcome of `known` to the outcome of `known` and that op. */
  lemma AppliedReflects(d: Doc, op: Op, known: set<Op>)
    requires Reflects(d, known)
    ensures Reflects(Applied(d, op), known + {op})
  {
    var d' := Applied(d, op);
    forall o | o in known + {op}
      ensures Covers(d', o)
    {
      CoversKept(d, op, o);
    }
    forall o | o in FullSet(d')
      ensures o in known + {op}
    {
      if o != op { assert o in FullSet(d); }
    }
  }

  lemma CoversKept(d: Doc, op: Op, o: Op)
    requires o == op || Covers(d, o)
    ensures Covers(Applied(d, op), o)
  {
    match op
    case SetField(key, v, at) =>
      if o == op {
        WinsIrreflexive(at);
      } else if o.SetField? && o.key == key && Wins(at, d.fields[key].at) {
        WinsAsymmetric(at, d.fields[key].at);
        WinsTransitive(o.at, d.fields[key].at, at);
      }
    case Put(id, v, at) =>
      if o == op {
        WinsIrreflexive(at);
      } else if o.Put? && o.id == id && id !in d.dead && Wins(at, d.stickers[id].at) {
        WinsAsymmetric(at, d.stickers[id].at);
        WinsTransitive(o.at, d.stickers[id].at, at);
      }
    case Drop(id, l) =>
  }

  /** The set of known ops decides the state, whatever the order they came in and however often. */
  lemma OneOutcome(d: Doc, e: Doc, known: set<Op>)
    requires Reflects(d, known) && Reflects(e, known) && Coherent(known)
    ensures SameContent(d, e)
  {
    hide Reflects, Coherent;
    SameEntries(d, e, known);
    SameEntries(e, d, known);
    assert d.fields.Keys == e.fields.Keys;
    assert d.stickers.Keys == e.stickers.Keys;
    assert d.dead.Keys == e.dead.Keys;
  }

  lemma SameEntries(d: Doc, e: Doc, known: set<Op>)
    requires Reflects(d, known) && Reflects(e, known) && Coherent(known)
    ensures forall k :: k in d.fields ==> k in e.fields && e.fields[k] == d.fields[k]
    ensures forall k :: k in d.stickers ==> k in e.stickers && e.stickers[k] == d.stickers[k]
    ensures forall k :: k in d.dead ==> k in e.dead && e.dead[k] == d.dead[k]
  {
    forall k | k in d.fields
      ensures k in e.fields && e.fields[k] == d.fields[k]
    {
      var o := SetField(k, d.fields[k].v, d.fields[k].at);
      assert o in FullSet(d) && Covers(e, o);
      var p := SetField(k, e.fields[k].v, e.fields[k].at);
      assert p in FullSet(e) && Covers(d, p);
      WinsTotal(o.at, p.at);
    }
    SameDead(d, e, known);
    SameDead(e, d, known);
    forall k | k in d.stickers
      ensures k in e.stickers && e.stickers[k] == d.stickers[k]
    {
      var o := Put(k, d.stickers[k].v, d.stickers[k].at);
      assert o in FullSet(d) && Covers(e, o);
      var p := Put(k, e.stickers[k].v, e.stickers[k].at);
      assert p in FullSet(e) && Covers(d, p);
      WinsTotal(o.at, p.at);
    }
  }

  lemma SameDead(d: Doc, e: Doc, known: set<Op>)
    requires Reflects(d, known) && Reflects(e, known)
    ensures forall k :: k in d.dead ==> k in e.dead && e.dead[k] == d.dead[k]
  {
    forall k | k in d.dead
      ensures k in e.dead && e.dead[k] == d.dead[k]
    {
      assert Drop(k, d.dead[k]) in FullSet(d) && Covers(e, Drop(k, d.dead[k]));
      assert Drop(k, e.dead[k]) in FullSet(e) && Covers(d, Drop(k, e.dead[k]));
    }
  }

  // ---------- the order stickers are shown in ----------

  lemma ByBirthTotal(a: string, b: string)
    requires a != b
    ensures ByBirth(a, b) || ByBirth(b, a)
  {
    BelowTotal(a, b);
  }

  lemma ByBirthTransitive(a: string, b: string, c: string)
    requires ByBirth(a, b) && ByBirth(b, c)
    ensures ByBirth(a, c)
  {
    if Birth(a) == Birth(b) == Birth(c) { BelowTransitive(a, b, c); }
  }

  ghost predicate InOrder(s: seq<string>) {
    forall i, j :: 0 <= i < j < |s| ==> ByBirth(s[i], s[j])
  }

  lemma {:induction false} OldestExists(ids: set<string>) returns (m: string)
    requires ids != {}
    ensures m in ids && forall x :: x in ids && x != m ==> ByBirth(m, x)
  {
    var x :| x in ids;
    if ids == {x} {
      m := x;
    } else {
      m := OldestExists(ids - {x});
      if ByBirth(x, m) {
        forall y | y in ids && y != x ensures ByBirth(x, y) {
          if y != m { ByBirthTransitive(x, m, y); }
        }
        m := x;
      } else {
        ByBirthTotal(x, m);
      }
    }
  }

  ghost function Sorted(ids: set<string>): (s: seq<string>)
    ensures InOrder(s) && (forall x :: x in s <==> x in ids) && |s| == |ids|
  {
    if ids == {} then []
    else
      hide ByBirth;
      assert exists m :: m in ids && forall x :: x in ids && x != m ==> ByBirth(m, x) by { var m := OldestExists(ids); }
      var m :| m in ids && forall x :: x in ids && x != m ==> ByBirth(m, x);
      [m] + Sorted(ids - {m})
  }

  /** The stickers on show: the oldest ones, at most MAX_STICKERS. */
  ghost function Visible(d: Doc): (s: seq<string>)
    ensures InOrder(s) && |s| <= MAX_STICKERS && forall x :: x in s ==> x in d.stickers
  {
    Oldest(Sorted(d.stickers.Keys))
  }

  // ---------- sorting whatever order the keys come in ----------

  /** The keys of a JavaScript object, each once, in an order that depends on when they were put in. */
  ghost predicate Lists(keys: seq<string>, ids: set<string>) {
    (forall i, j :: 0 <= i < j < |keys| ==> keys[i] != keys[j]) && forall x :: x in keys <==> x in ids
  }

  /** What sorting by birth may return: the same keys, none before one that is older. */
  ghost predicate SortOf(s: seq<string>, keys: seq<string>) {
    multiset(s) == multiset(keys) && forall i, j :: 0 <= i < j < |s| ==> !ByBirth(s[j], s[i])
  }

  function Oldest(s: seq<string>): seq<string> { if |s| <= MAX_STICKERS then s else s[..MAX_STICKERS] }

  /** A list `visible()` may give, for some order of the keys. */
  ghost predicate MayShow(d: Doc, shown: seq<string>) {
    exists keys, s :: Lists(keys, d.stickers.Keys) && SortOf(s, keys) && shown == Oldest(s)
  }

  lemma {:induction false} CountOnce(keys: seq<string>, x: string)
    requires forall i, j :: 0 <= i < j < |keys| ==> keys[i] != keys[j]
    ensures multiset(keys)[x] <= 1
  {
    if keys != [] {
      var most, last := keys[..|keys| - 1], keys[|keys| - 1];
      assert keys == most + [last];
      CountOnce(most, x);
    }
  }

  lemma CountTwice(s: seq<string>, i: nat, j: nat)
    requires i < j < |s| && s[i] == s[j]
    ensures multiset(s)[s[i]] >= 2
  {
    assert s == s[..j] + [s[j]] + s[j + 1..];
    assert s[..j][i] == s[i];
    assert s[i] in multiset(s[..j]);
  }

  /** Sorting different keys puts them into the order by birth. */
  lemma SortedKeys(s: seq<string>, keys: seq<string>, ids: set<string>)
    requires Lists(keys, ids) && SortOf(s, keys)
    ensures InOrder(s) && forall x :: x in s <==> x in ids
  {
    forall x ensures x in s <==> x in ids {
      assert x in s <==> x in multiset(s);
      assert x in keys <==> x in multiset(keys);
    }
    forall i, j | 0 <= i < j < |s| ensures ByBirth(s[i], s[j]) {
      if s[i] == s[j] {
        CountTwice(s, i, j);
        CountOnce(keys, s[i]);
      } else {
        ByBirthTotal(s[i], s[j]);
      }
    }
  }

  lemma ByBirthIrreflexive(a: string)
    ensures !ByBirth(a, a)
  {
    BelowIrreflexive(a);
  }

  lemma ByBirthAsymmetric(a: string, b: string)
    requires ByBirth(a, b)
    ensures !ByBirth(b, a)
  {
    if ByBirth(b, a) {
      ByBirthTransitive(a, b, a);
      ByBirthIrreflexive(a);
    }
  }

  /** Of two lists in order with the same ids, both begin with the oldest. */
  lemma SameFirst(s: seq<string>, t: seq<string>)
    requires InOrder(s) && InOrder(t) && s != [] && t != [] && forall x :: x in s <==> x in t
    ensures s[0] == t[0]
  {
    if s[0] != t[0] {
      assert s[0] in t && t[0] in s;
      assert ByBirth(t[0], s[0]) && ByBirth(s[0], t[0]);
      ByBirthAsymmetric(s[0], t[0]);
    }
  }

  lemma TailIds(s: seq<string>, x: string)
    requires InOrder(s) && s != []
    ensures x in s[1..] <==> x in s && x != s[0]
  {
    ByBirthIrreflexive(s[0]);
    hide ByBirth;
    assert s == [s[0]] + s[1..];
  }

  lemma NoIds(t: seq<string>)
    ensures t == [] <==> forall x :: x !in t
  {
    if t != [] { assert t[0] in t; }
  }

  /** There is only one order by birth. */
  lemma {:induction false} OneOrder(s: seq<string>, t: seq<string>)
    requires InOrder(s) && InOrder(t) && forall x :: x in s <==> x in t
    ensures s == t
    decreases |s|
  {
    hide ByBirth;
    if s == [] {
      NoIds(t);
    } else {
      assert s[0] in t;
      SameFirst(s, t);
      forall x ensures x in s[1..] <==> x in t[1..] {
        TailIds(s, x);
        TailIds(t, x);
      }
      OneOrder(s[1..], t[1..]);
      assert s == [s[0]] + s[1..] && t == [t[0]] + t[1..];
    }
  }

  /** `visible()` gives the oldest stickers by birth, whatever order the keys came in. */
  lemma ShowsVisible(d: Doc, shown: seq<string>)
    ensures MayShow(d, shown) <==> shown == Visible(d)
  {
    var all := Sorted(d.stickers.Keys);
    if MayShow(d, shown) {
      var keys, s :| Lists(keys, d.stickers.Keys) && SortOf(s, keys) && shown == Oldest(s);
      SortedKeys(s, keys, d.stickers.Keys);
      OneOrder(s, all);
    }
    forall i, j | 0 <= i < j < |all| ensures !ByBirth(all[j], all[i]) && all[i] != all[j] {
      ByBirthAsymmetric(all[i], all[j]);
      ByBirthIrreflexive(all[i]);
    }
    assert Lists(all, d.stickers.Keys) && SortOf(all, all);
  }

  /** Editors with the same content show the same list, however differently their stickers came to them. */
  lemma SameVisible(d: Doc, e: Doc)
    requires SameContent(d, e)
    ensures forall x, y :: MayShow(d, x) && MayShow(e, y) ==> x == y
  {
    hide MayShow, Visible;
    forall x, y | MayShow(d, x) && MayShow(e, y) ensures x == y {
      ShowsVisible(d, x);
      ShowsVisible(e, y);
      VisibleByContent(d, e);
    }
  }

  lemma VisibleByContent(d: Doc, e: Doc)
    requires SameContent(d, e)
    ensures Visible(d) == Visible(e)
  {
  }
}
