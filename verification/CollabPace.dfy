/** The send rate: a token bucket of ten frames that refills 1.6 frames a second. */
module CollabPace {

  const BUCKET := 10.0
  const REFILL_PER_S := 1.6
  const FLUSH_MS := 250.0
  const DIGEST_MS := 3000.0

  datatype Since = Never | At(t: real)

  datatype Pace = Pace(up: bool, tokens: real, refilled: real, lastFlush: Since, lastDigest: Since, helloDue: bool)

  const FRESH := Pace(false, BUCKET, 0.0, Never, Never, false)

  predicate Past(s: Since, now: real, ms: real) { s.Never? || now - s.t >= ms }

  function Least(a: real, b: real): real { if a < b then a else b }

  function Most(a: real, b: real): real { if a < b then b else a }

  function Refilled(p: Pace, now: real): real {
    Least(BUCKET, p.tokens + Most(0.0, now - p.refilled) / 1000.0 * REFILL_PER_S)
  }

  /** Whether this tick sends a frame; `wants`: ops wait and the kind of work is known. */
  predicate Sends(p: Pace, now: real, wants: bool) {
    p.up && Refilled(p, now) >= 1.0 && Past(p.lastFlush, now, FLUSH_MS)
      && (p.helloDue || wants || Past(p.lastDigest, now, DIGEST_MS))
  }

  function Ticked(p: Pace, now: real, wants: bool): Pace {
    var q := p.(tokens := Refilled(p, now), refilled := now);
    if !Sends(p, now, wants) then q
    else
      q.(tokens := q.tokens - 1.0, lastFlush := At(now), helloDue := false,
         lastDigest := if p.helloDue || !wants then At(now) else p.lastDigest)
  }

  function Opened(p: Pace): Pace {
    p.(up := true, lastDigest := Never, helloDue := true, tokens := Most(p.tokens, 2.0))
  }

  datatype Event =
    | Look(now: real, wants: bool)
    | Connect(now: real, wants: bool)
    | Disconnect(now: real)

  function Happen(p: Pace, e: Event): Pace {
    match e
    case Look(now, wants) => Ticked(p, now, wants)
    case Connect(now, wants) => Ticked(Opened(p), now, wants)
    case Disconnect(_) => p.(up := false)
  }

  function Frames(p: Pace, e: Event): nat {
    match e
    case Look(now, wants) => if Sends(p, now, wants) then 1 else 0
    case Connect(now, wants) => if Sends(Opened(p), now, wants) then 1 else 0
    case Disconnect(_) => 0
  }

  function After(p: Pace, es: seq<Event>): Pace
    decreases |es|
  {
    if es == [] then p else After(Happen(p, es[0]), es[1..])
  }

  function Sent(p: Pace, es: seq<Event>): nat
    decreases |es|
  {
    if es == [] then 0 else Frames(p, es[0]) + Sent(Happen(p, es[0]), es[1..])
  }

  function Connects(es: seq<Event>): nat
    decreases |es|
  {
    if es == [] then 0 else (if es[0].Connect? then 1 else 0) + Connects(es[1..])
  }

  /** Clock readings never run backwards. */
  predicate Ordered(from: real, es: seq<Event>)
    decreases |es|
  {
    es == [] || (from <= es[0].now && Ordered(es[0].now, es[1..]))
  }

  /** The bucket holds between none and ten. */
  predicate Good(p: Pace) { 0.0 <= p.tokens <= BUCKET }

  lemma {:induction false} GoodAfter(p: Pace, es: seq<Event>)
    requires Good(p)
    ensures Good(After(p, es))
    decreases |es|
  {
    if es != [] { GoodAfter(Happen(p, es[0]), es[1..]); }
  }

  /** One event at `e.now`: what it sends comes out of the bucket, filled up since `from`, and a connect adds two. */
  lemma Spend(p: Pace, e: Event, from: real)
    requires Good(p) && from <= e.now
    ensures Good(Happen(p, e))
    ensures Refilled(Happen(p, e), e.now) + Frames(p, e) as real
            <= Refilled(p, from) + (e.now - from) / 1000.0 * REFILL_PER_S + (if e.Connect? then 2.0 else 0.0)
  {
  }

  lemma {:induction false} Budget(p: Pace, es: seq<Event>, from: real, end: real)
    requires Good(p) && Ordered(from, es) && from <= end
    requires forall i :: 0 <= i < |es| ==> es[i].now <= end
    ensures Sent(p, es) as real <= Refilled(p, from) + (end - from) / 1000.0 * REFILL_PER_S + 2.0 * Connects(es) as real
    decreases |es|
  {
    if es != [] {
      assert es[0].now <= end;
      Spend(p, es[0], from);
      Budget(Happen(p, es[0]), es[1..], es[0].now, end);
    }
  }

  lemma {:induction false} OrderedTail(from: real, before: seq<Event>, window: seq<Event>)
    requires Ordered(from, before + window) && window != []
    ensures Ordered(window[0].now, window)
    decreases |before|
  {
    if before == [] {
      assert before + window == window;
    } else {
      assert (before + window)[1..] == before[1..] + window;
      OrderedTail(before[0].now, before[1..], window);
    }
  }

  /**
    The send bound: whatever happened before, the frames sent in any 60 seconds number at most 106, plus two for
    every connect among them; up to seven reconnects stay within the channel's 120.
   */
  lemma MinuteBound(before: seq<Event>, window: seq<Event>, t: real)
    requires Ordered(0.0, before + window)
    requires forall i :: 0 <= i < |window| ==> t <= window[i].now <= t + 60000.0
    ensures Sent(After(FRESH, before), window) <= 106 + 2 * Connects(window)
    ensures Connects(window) <= 7 ==> Sent(After(FRESH, before), window) <= 120
  {
    GoodAfter(FRESH, before);
    if window != [] {
      assert t <= window[0].now <= t + 60000.0;
      OrderedTail(0.0, before, window);
      Budget(After(FRESH, before), window, t, t + 60000.0);
    }
  }
}
