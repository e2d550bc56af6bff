/** Replaying a finished deal to see whether everyone kept to the protocol. */
module MpokerVerify {
  import opened Modular
  import opened MpokerDeal
  import opened Pigeonhole
  import LPrime

  function At(d: seq<Deck>, s: nat): Deck { if s < |d| then d[s] else [] }

  method ValidSecrets(s: Secrets, n: nat, q: int) returns (ok: bool)
    ensures ok <==> Valid(s, n, q)
  {
    if |s.perm| != n || |s.ki| != n { return false; }
    var seen: set<int> := {};
    for i := 0 to n
      invariant seen == set k | 0 <= k < i :: s.perm[k]
      invariant forall k :: 0 <= k < i ==> 0 <= s.perm[k] < n
      invariant forall k, l :: 0 <= k < l < i ==> s.perm[k] != s.perm[l]
    {
      var j := s.perm[i];
      if !(0 <= j < n) || j in seen { return false; }
      seen := seen + {j};
    }
    if !ValidKey(s.k, q) { return false; }
    ok := forall i :: 0 <= i < n ==> ValidKey(s.ki[i], q);
  }

  /** Every published deck is the one the revealed secrets give. */
  ghost predicate Honest(t: Transcript, q: int)
    requires q > 0
  {
    && AllValid(t.sec, t.n, q)
    && (forall s :: 0 <= s < |t.sec| ==> At(t.d1, s) == ShuffleAll(t.sec[..s + 1], t.n, q))
    && (forall s :: 0 <= s < |t.sec| ==> At(t.d2, s) == LockAll(ShuffleAll(t.sec, t.n, q), t.sec[..s + 1], q))
  }

  /** The decks a seat works on: the last ones published before its shuffle and before its lock. */
  function Published1(t: Transcript, s: nat, q: int): Deck
    requires q > 0
  {
    if s == 0 then Cards(t.n, q) else At(t.d1, s - 1)
  }

  function Published2(t: Transcript, s: nat): Deck
    requires s < |t.sec|
  {
    if s == 0 then At(t.d1, |t.sec| - 1) else At(t.d2, s - 1)
  }

  /** The seat's own part: valid secrets, and both its decks made from the ones published before them. */
  ghost predicate Followed(t: Transcript, s: nat, q: int)
    requires q > 0 && s < |t.sec|
  {
    && Valid(t.sec[s], t.n, q)
    && (|Published1(t, s, q)| == t.n ==> At(t.d1, s) == Shuffled(Published1(t, s, q), t.sec[s], q))
    && (|Published2(t, s)| == t.n ==> At(t.d2, s) == Locked(Published2(t, s), t.sec[s], q))
  }

  /** How far a replay got: to the end with a deck, or to a seat whose step does not match. */
  datatype Replay = Done(deck: Deck) | Stopped(seat: nat, why: Why)

  function Range(n: nat): seq<int> { seq(n, i => i) }

  function Dealt(secs: seq<Secrets>, n: nat, q: int): seq<int>
    requires AllValid(secs, n, q)
  {
    seq(n, i requires 0 <= i < n => Composed(secs, n, q, i))
  }

  lemma DealtPermutes(secs: seq<Secrets>, n: nat, q: int)
    requires AllValid(secs, n, q)
    ensures Permutes(Dealt(secs, n, q), n)
  {
    forall i, j | 0 <= i < j < n ensures Dealt(secs, n, q)[i] != Dealt(secs, n, q)[j] {
      ComposedInjective(secs, n, q, i, j);
    }
  }

  /** Sorted, a permutation is 0, 1, 2, ... */
  lemma PermutationSorts(p: seq<int>, n: nat)
    requires Permutes(p, n)
    ensures multiset(p) == multiset(Range(n))
  {
    AllThere(p, n);
    forall x ensures multiset(p)[x] == multiset(Range(n))[x] {
      OnceOnly(p, x);
      OnceOnly(Range(n), x);
      if 0 <= x < n { assert Range(n)[x] == x; }
    }
  }

  // ---------- verify ----------

  ghost predicate ShufflesMatch(t: Transcript, upTo: nat, q: int)
    requires q > 0 && upTo <= |t.sec|
  {
    && AllValid(t.sec[..upTo], t.n, q)
    && forall s :: 0 <= s < upTo ==> At(t.d1, s) == ShuffleAll(t.sec[..s + 1], t.n, q)
  }

  ghost predicate LocksMatch(t: Transcript, shuffled: Deck, upTo: nat, q: int)
    requires q > 0 && upTo <= |t.sec| && |shuffled| == t.n && AllValid(t.sec, t.n, q)
  {
    forall s :: 0 <= s < upTo ==> At(t.d2, s) == LockAll(shuffled, t.sec[..s + 1], q)
  }

  lemma NextShuffle(secs: seq<Secrets>, s: nat, n: nat, q: int)
    requires q > 0 && s < |secs| && AllValid(secs[..s], n, q) && Valid(secs[s], n, q)
    ensures AllValid(secs[..s + 1], n, q)
    ensures ShuffleAll(secs[..s + 1], n, q) == Shuffled(ShuffleAll(secs[..s], n, q), secs[s], q)
  {
    hide Valid, Shuffled;
    assert secs[..s + 1][..s] == secs[..s];
  }

  lemma NextLock(deck: Deck, secs: seq<Secrets>, s: nat, q: int)
    requires q > 0 && s < |secs| && AllValid(secs, |deck|, q)
    ensures LockAll(deck, secs[..s + 1], q) == Locked(LockAll(deck, secs[..s], q), secs[s], q)
  {
    hide Valid, Locked;
    assert secs[..s + 1][..s] == secs[..s];
  }

  method ReplayShuffles(t: Transcript, q: int) returns (r: Replay)
    requires q > 0
    ensures r.Done? <==> ShufflesMatch(t, |t.sec|, q)
    ensures r.Done? ==> AllValid(t.sec, t.n, q) && r.deck == ShuffleAll(t.sec, t.n, q)
    ensures r.Stopped? ==> r.why != BadDeck && r.seat < |t.sec| && !Followed(t, r.seat, q)
  {
    hide Valid, Shuffled, Locked, ShuffleAll, Cards;
    var deck := Cards(t.n, q);
    StartDeck(t, q);
    for s := 0 to |t.sec|
      invariant ShufflesMatch(t, s, q) && deck == ShuffleAll(t.sec[..s], t.n, q)
    {
      var ok := ValidSecrets(t.sec[s], t.n, q);
      if !ok {
        assert t.sec[s] in t.sec[..|t.sec|];
        return Stopped(s, BadSecrets);
      }
      NextShuffle(t.sec, s, t.n, q);
      BeforeShuffle(t, s, q);
      deck := Shuffled(deck, t.sec[s], q);
      if deck != At(t.d1, s) { return Stopped(s, BadShuffle); }
    }
    assert t.sec[..|t.sec|] == t.sec;
    r := Done(deck);
  }

  lemma StartDeck(t: Transcript, q: int)
    requires q > 0
    ensures AllValid(t.sec[..0], t.n, q) && ShuffleAll(t.sec[..0], t.n, q) == Cards(t.n, q)
  {
  }

  lemma BeforeShuffle(t: Transcript, s: nat, q: int)
    requires q > 0 && s < |t.sec| && ShufflesMatch(t, s, q)
    ensures Published1(t, s, q) == ShuffleAll(t.sec[..s], t.n, q)
  {
    hide Valid, Shuffled;
    if s > 0 { assert At(t.d1, s - 1) == ShuffleAll(t.sec[..s - 1 + 1], t.n, q); }
  }

  lemma BeforeLock(t: Transcript, s: nat, q: int)
    requires q > 0 && s < |t.sec| && AllValid(t.sec, t.n, q) && ShufflesMatch(t, |t.sec|, q)
    requires LocksMatch(t, ShuffleAll(t.sec, t.n, q), s, q)
    ensures Published2(t, s) == LockAll(ShuffleAll(t.sec, t.n, q), t.sec[..s], q)
  {
    hide Valid, Shuffled, Locked, ShuffleAll;
    if s > 0 {
      assert At(t.d2, s - 1) == LockAll(ShuffleAll(t.sec, t.n, q), t.sec[..s - 1 + 1], q);
    } else {
      var l := |t.sec| - 1;
      assert t.sec[..l + 1] == t.sec;
      assert At(t.d1, l) == ShuffleAll(t.sec[..l + 1], t.n, q);
    }
  }

  method ReplayLocks(t: Transcript, shuffled: Deck, q: int) returns (r: Replay)
    requires q > 0 && AllValid(t.sec, t.n, q) && ShufflesMatch(t, |t.sec|, q) && shuffled == ShuffleAll(t.sec, t.n, q)
    ensures r.Done? <==> LocksMatch(t, shuffled, |t.sec|, q)
    ensures r.Done? ==> r.deck == LockAll(shuffled, t.sec, q)
    ensures r.Stopped? ==> r.why != BadDeck && r.seat < |t.sec| && !Followed(t, r.seat, q)
  {
    hide Valid, Shuffled, Locked, ShuffleAll, LockAll;
    var deck := shuffled;
    StartLocks(shuffled, t.sec, q);
    for s := 0 to |t.sec|
      invariant LocksMatch(t, shuffled, s, q) && deck == LockAll(shuffled, t.sec[..s], q)
    {
      NextLock(shuffled, t.sec, s, q);
      BeforeLock(t, s, q);
      deck := Locked(deck, t.sec[s], q);
      if deck != At(t.d2, s) { return Stopped(s, BadLock); }
    }
    assert t.sec[..|t.sec|] == t.sec;
    r := Done(deck);
  }

  lemma StartLocks(deck: Deck, secs: seq<Secrets>, q: int)
    requires q > 0 && AllValid(secs, |deck|, q)
    ensures LockAll(deck, secs[..0], q) == deck
  {
  }

  lemma HonestMeans(t: Transcript, q: int)
    requires q > 0
    ensures Honest(t, q) <==>
      ShufflesMatch(t, |t.sec|, q) && AllValid(t.sec, t.n, q) && LocksMatch(t, ShuffleAll(t.sec, t.n, q), |t.sec|, q)
  {
    hide Valid, ShuffleAll, LockAll;
    assert t.sec[..|t.sec|] == t.sec;
  }

  /**
    The replay accepts exactly the honest transcripts and reports the composed permutation; a seat it names did not
    follow the protocol; and once every deck matched, the final look at the deck cannot fail.
   */
  method Verify(t: Transcript, q: int) returns (v: Verdict)
    requires Prime(q) && 2 * t.n < q
    ensures v.Fine? <==> Honest(t, q)
    ensures v.Fine? ==> v.deck == Dealt(t.sec, t.n, q)
    ensures v.Caught? ==> v.why != BadDeck && 0 <= v.seat < |t.sec| && !Followed(t, v.seat, q)
  {
    hide Valid, ShuffleAll, LockAll, Followed, Honest, LocksMatch, ShufflesMatch, Dealt;
    HonestMeans(t, q);
    var r := ReplayShuffles(t, q);
    if r.Stopped? { return Caught(r.seat, r.why); }
    r := ReplayLocks(t, r.deck, q);
    if r.Stopped? { return Caught(r.seat, r.why); }
    var ids := OpenAll(r.deck, t.sec, t.n, q);
    DealtPermutes(t.sec, t.n, q);
    PermutationSorts(ids, t.n);
    if multiset(ids) != multiset(Range(t.n)) { return Caught(-1, BadDeck); }
    v := Fine(ids);
  }

  /** The same for the table's own order, which is prime. */
  method VerifyDeal(t: Transcript) returns (v: Verdict)
    requires 2 * t.n < LPrime.L
    ensures v.Fine? <==> Honest(t, LPrime.L)
    ensures v.Fine? ==> v.deck == Dealt(t.sec, t.n, LPrime.L)
    ensures v.Caught? ==> v.why != BadDeck && 0 <= v.seat < |t.sec| && !Followed(t, v.seat, LPrime.L)
  {
    hide Honest, Dealt, Followed, Prime;
    LPrime.OrderIsPrime();
    v := Verify(t, LPrime.L);
  }

  /** Every key of the table has a true inverse. */
  lemma KeysInvert(k: nat)
    requires ValidKey(k, LPrime.L)
    ensures (InvOf(k, LPrime.L) * k) % LPrime.L == 1
  {
    hide InvOf, Prime, Unit;
    LPrime.OrderIsPrime();
    PrimeUnit(k, LPrime.L);
    UnitInverse(k, LPrime.L);
  }

  method OpenAll(deck: Deck, secs: seq<Secrets>, n: nat, q: int) returns (ids: seq<int>)
    requires Prime(q) && 2 * n < q && AllValid(secs, n, q) && deck == LockAll(ShuffleAll(secs, n, q), secs, q)
    ensures ids == Dealt(secs, n, q)
  {
    ids := [];
    for i := 0 to n
      invariant |ids| == i && forall k :: 0 <= k < i ==> ids[k] == Composed(secs, n, q, k)
    {
      DealtCard(secs, n, q, i);
      ids := ids + [Open(deck[i], KeysAt(secs, n, q, i), n, q)];
    }
  }
}
