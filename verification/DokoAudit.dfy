/** After the hand every card is known: was everything as claimed? */
module DokoAudit {
  import opened Options
  import opened DokoCards
  import opened DokoRules
  import opened DokoGame
  import opened DokoRuns
  import opened DokoScore

  /** What is left of a seat's hand after the cards it played. */
  function Left(hand: seq<Card>, ps: seq<Played>, seat: int): seq<Card> {
    if ps == [] then hand
    else
      var before := Left(hand, ps[..|ps| - 1], seat);
      if ps[|ps| - 1].seat == seat then Without(before, ps[|ps| - 1].card) else before
  }

  lemma LeftSnoc(hand: seq<Card>, ps: seq<Played>, x: Played, seat: int)
    ensures Left(hand, ps + [x], seat) == if x.seat == seat then Without(Left(hand, ps, seat), x.card)
      else Left(hand, ps, seat)
  {
    assert (ps + [x])[..|ps|] == ps;
  }

  predicate Seated(ps: seq<Played>) { forall k :: 0 <= k < |ps| ==> 0 <= ps[k].seat < 4 }

  /** Where the trick of the k-th card began: tricks are every four cards. */
  function TrickStart(k: nat): (r: nat)
    ensures r <= k < r + 4 && r % 4 == 0
  {
    k - k % 4
  }

  /** The k-th card was in the hand and followed suit if it could. */
  predicate LegalAt(trumps: seq<Card>, hands: seq<seq<Card>>, ps: seq<Played>, k: nat)
    requires |hands| == 4 && Seated(ps) && k < |ps|
  {
    MayPlay(trumps, ps[TrickStart(k)..k], Left(hands[ps[k].seat], ps[..k], ps[k].seat), ps[k].card)
  }

  ghost predicate AllLegal(trumps: seq<Card>, hands: seq<seq<Card>>, ps: seq<Played>)
    requires |hands| == 4 && Seated(ps)
  {
    forall k :: 0 <= k < |ps| ==> LegalAt(trumps, hands, ps, k)
  }

  lemma LegalEarlier(trumps: seq<Card>, hands: seq<seq<Card>>, ps: seq<Played>, x: Played, k: nat)
    requires |hands| == 4 && Seated(ps) && Seated(ps + [x]) && k < |ps|
    ensures LegalAt(trumps, hands, ps + [x], k) <==> LegalAt(trumps, hands, ps, k)
  {
    hide MayPlay, Left, TrickStart;
    assert (ps + [x])[..k] == ps[..k];
    assert (ps + [x])[TrickStart(k)..k] == ps[TrickStart(k)..k];
  }

  lemma LegalLast(trumps: seq<Card>, hands: seq<seq<Card>>, ps: seq<Played>, x: Played)
    requires |hands| == 4 && Seated(ps + [x]) && 0 <= x.seat < 4
    ensures LegalAt(trumps, hands, ps + [x], |ps|) <==>
      MayPlay(trumps, ps[TrickStart(|ps|)..], Left(hands[x.seat], ps, x.seat), x.card)
  {
    hide MayPlay, Left, TrickStart;
    var n := |ps|;
    assert (ps + [x])[..n] == ps;
    assert (ps + [x])[TrickStart(n)..n] == ps[TrickStart(n)..];
  }

  lemma LegalSnoc(trumps: seq<Card>, hands: seq<seq<Card>>, ps: seq<Played>, x: Played)
    requires |hands| == 4 && Seated(ps) && 0 <= x.seat < 4
    ensures Seated(ps + [x])
    ensures AllLegal(trumps, hands, ps + [x]) <==>
      (AllLegal(trumps, hands, ps) && MayPlay(trumps, ps[TrickStart(|ps|)..], Left(hands[x.seat], ps, x.seat), x.card))
  {
    hide MayPlay, Left, LegalAt, AllLegal;
    assert Seated(ps + [x]);
    hide Seated;
    LegalLast(trumps, hands, ps, x);
    LegalFirst(trumps, hands, ps, x);
  }

  lemma LegalFirst(trumps: seq<Card>, hands: seq<seq<Card>>, ps: seq<Played>, x: Played)
    requires |hands| == 4 && Seated(ps) && Seated(ps + [x])
    ensures AllLegal(trumps, hands, ps + [x]) <==> AllLegal(trumps, hands, ps) && LegalAt(trumps, hands, ps + [x], |ps|)
  {
    hide LegalAt, Seated;
    var all := ps + [x];
    forall k | 0 <= k < |ps|
      ensures LegalAt(trumps, hands, all, k) <==> LegalAt(trumps, hands, ps, k)
    {
      LegalEarlier(trumps, hands, ps, x, k);
    }
  }

  // ---------- the audit ----------

  datatype Fault = WrongHand | WrongDeck | NotHeld | NotFollowed | FalseMarriage | FalseCall
  datatype Complaint = Complaint(seat: int, fault: Fault)

  ghost predicate LeftNow(left: seq<seq<Card>>, hands: seq<seq<Card>>, ps: seq<Played>) {
    |left| == |hands| == 4 && forall x :: 0 <= x < 4 ==> left[x] == Left(hands[x], ps, x)
  }

  /** One card against the hand it should have come from. */
  method AuditCard(trumps: seq<Card>, hand: seq<Card>, lead: Option<Card>, x: Played)
    returns (hand': seq<Card>, lead': Option<Card>, out: seq<Complaint>)
    ensures forall cards: seq<Played> :: (if cards == [] then lead == None else lead == Some(cards[0].card)) ==>
      (out == [] <==> MayPlay(trumps, cards, hand, x.card))
    ensures out == [] ==> hand' == Without(hand, x.card) && lead' == if lead == None then Some(x.card) else lead
  {
    hide Follows;
    var i := IndexOf(hand, x.card);
    if i < 0 { return hand, lead, [Complaint(x.seat, NotHeld)]; }
    out, lead' := [], lead;
    if lead == None {
      lead' := Some(x.card);
    } else if Follows(trumps, x.card) != Follows(trumps, lead.value)
      && exists c :: c in hand && Follows(trumps, c) == Follows(trumps, lead.value) {
      out := [Complaint(x.seat, NotFollowed)];
    }
    hand' := hand[..i] + hand[i + 1..];
  }

  /** One trick, against the hands as they were left by the tricks before it. */
  method AuditTrick(trumps: seq<Card>, left0: seq<seq<Card>>, cards: seq<Played>, ghost hands: seq<seq<Card>>,
      ghost before: seq<Played>)
    returns (left: seq<seq<Card>>, out: seq<Complaint>)
    requires |left0| == |hands| == 4 && |before| % 4 == 0 && |cards| <= 4 && Seated(before) && Seated(cards)
    ensures |left| == 4 && Seated(before + cards)
    ensures LeftNow(left0, hands, before) && AllLegal(trumps, hands, before) ==>
      (out == [] <==> AllLegal(trumps, hands, before + cards)) && (out == [] ==> LeftNow(left, hands, before + cards))
  {
    hide MayPlay, Left, LegalAt, Without;
    left, out := left0, [];
    var lead: Option<Card> := None;
    assert before + cards[..0] == before;
    for j := 0 to |cards|
      invariant |left| == 4
      invariant LeftNow(left0, hands, before) && AllLegal(trumps, hands, before) ==>
        (out == [] <==> AllLegal(trumps, hands, before + cards[..j])) &&
        (out == [] ==> LeftNow(left, hands, before + cards[..j]) && lead == if j == 0 then None
          else Some(cards[0].card))
    {
      var x := cards[j];
      var hand, lead', bad := AuditCard(trumps, left[x.seat], lead, x);
      TrickSnoc(trumps, hands, before, cards, j, left, hand);
      left, lead, out := left[x.seat := hand], lead', out + bad;
    }
    assert cards[..|cards|] == cards;
  }

  lemma TrickSnoc(trumps: seq<Card>, hands: seq<seq<Card>>, before: seq<Played>, cards: seq<Played>, j: nat,
      left: seq<seq<Card>>, hand: seq<Card>)
    requires |hands| == 4 && |before| % 4 == 0 && j < |cards| <= 4 && Seated(before) && Seated(cards)
    ensures AllLegal(trumps, hands, before + cards[..j + 1]) <==>
      (AllLegal(trumps, hands, before + cards[..j])
       && MayPlay(trumps, cards[..j], Left(hands[cards[j].seat], before + cards[..j], cards[j].seat), cards[j].card))
    ensures LeftNow(left, hands, before + cards[..j]) && hand == Without(left[cards[j].seat], cards[j].card) ==>
      LeftNow(left[cards[j].seat := hand], hands, before + cards[..j + 1])
  {
    hide MayPlay, Left, LegalAt, AllLegal, Without;
    var x, ps := cards[j], before + cards[..j];
    assert before + cards[..j + 1] == ps + [x];
    LegalSnoc(trumps, hands, ps, x);
    assert ps[TrickStart(|ps|)..] == cards[..j];
    forall s | 0 <= s < 4
      ensures Left(hands[s], ps + [x], s) == if x.seat == s then Without(Left(hands[s], ps, s), x.card)
        else Left(hands[s], ps, s)
    {
      LeftSnoc(hands[s], ps, x, s);
    }
  }

  lemma NothingPlayed(hands: seq<seq<Card>>)
    requires |hands| == 4
    ensures LeftNow(hands, hands, [])
  {
  }

  method AuditPlays(s: State, hands: seq<seq<Card>>) returns (out: seq<Complaint>)
    requires Inv(s) && |hands| == 4
    ensures Seated(Plays(s)) && (out == [] <==> AllLegal(Trumps(s.kind), hands, Plays(s)))
  {
    hide Inv, LegalAt, Left, Trumps, TrickOk;
    var trumps, left := Trumps(s.kind), hands;
    out := [];
    TableHolds(s);
    NothingPlayed(hands);
    for i := 0 to |s.tricks|
      invariant |left| == 4 && |Flat(s.tricks[..i])| % 4 == 0 && Seated(Flat(s.tricks[..i]))
      invariant out == [] <==> AllLegal(trumps, hands, Flat(s.tricks[..i]))
      invariant out == [] ==> LeftNow(left, hands, Flat(s.tricks[..i]))
    {
      var bad;
      GroupSnoc(s.tricks, i, trumps, hands);
      left, bad := AuditTrick(trumps, left, s.tricks[i].cards, hands, Flat(s.tricks[..i]));
      out := out + bad;
    }
    assert s.tricks[..|s.tricks|] == s.tricks;
    if s.cards != [] {
      var bad;
      OpenGroup(s, trumps, hands);
      left, bad := AuditTrick(trumps, left, s.cards, hands, Flat(s.tricks));
      out := out + bad;
    } else {
      assert Plays(s) == Flat(s.tricks);
    }
  }

  lemma Fewer(trumps: seq<Card>, hands: seq<seq<Card>>, a: seq<Played>, b: seq<Played>)
    requires |hands| == 4 && Seated(a) && Seated(b) && AllLegal(trumps, hands, a + b)
    ensures AllLegal(trumps, hands, a)
  {
    hide LegalAt;
    assert Seated(a + b);
    forall k | 0 <= k < |a| ensures LegalAt(trumps, hands, a, k) {
      assert LegalAt(trumps, hands, a + b, k);
      LegalBefore(trumps, hands, a, b, k);
    }
  }

  lemma LegalBefore(trumps: seq<Card>, hands: seq<seq<Card>>, a: seq<Played>, b: seq<Played>, k: nat)
    requires |hands| == 4 && Seated(a) && Seated(a + b) && k < |a|
    ensures LegalAt(trumps, hands, a + b, k) <==> LegalAt(trumps, hands, a, k)
  {
    hide MayPlay, Left, TrickStart;
    assert (a + b)[..k] == a[..k];
    assert (a + b)[TrickStart(k)..k] == a[TrickStart(k)..k];
  }

  lemma GroupSnoc(tricks: seq<Trick>, i: nat, trumps: seq<Card>, hands: seq<seq<Card>>)
    requires |hands| == 4 && i < |tricks| && TrickOk(tricks[i]) && Seated(Flat(tricks[..i]))
    requires |Flat(tricks[..i])| % 4 == 0
    ensures Flat(tricks[..i + 1]) == Flat(tricks[..i]) + tricks[i].cards && |tricks[i].cards| == 4
    ensures Seated(tricks[i].cards)
    ensures Seated(Flat(tricks[..i + 1])) && |Flat(tricks[..i + 1])| % 4 == 0
    ensures AllLegal(trumps, hands, Flat(tricks[..i + 1])) ==> AllLegal(trumps, hands, Flat(tricks[..i]))
  {
    hide AllLegal, EyeSum;
    assert tricks[..i + 1] == tricks[..i] + [tricks[i]];
    FlatSnoc(tricks[..i], tricks[i]);
    if AllLegal(trumps, hands, Flat(tricks[..i]) + tricks[i].cards) {
      Fewer(trumps, hands, Flat(tricks[..i]), tricks[i].cards);
    }
  }

  lemma OpenGroup(s: State, trumps: seq<Card>, hands: seq<seq<Card>>)
    requires Inv(s) && |hands| == 4 && Seated(Flat(s.tricks))
    ensures |s.cards| < 4 && Seated(s.cards) && Seated(Plays(s))
    ensures AllLegal(trumps, hands, Plays(s)) ==> AllLegal(trumps, hands, Flat(s.tricks))
  {
    hide AllLegal, EyeSum, Flat, AtMostTwice, Sides, TalkOk;
    if AllLegal(trumps, hands, Plays(s)) { Fewer(trumps, hands, Flat(s.tricks), s.cards); }
  }

  // ---------- hands, claims and calls ----------

  ghost predicate MarriagesTrue(say: seq<Say>, hands: seq<seq<Card>>)
    requires |say| == |hands| == 4
  {
    forall x :: 0 <= x < 4 && say[x] == Marriage ==> QueensOf(hands, x) == 2
  }

  ghost predicate CallsFit(calls: seq<Call>, re: seq<int>) {
    forall i :: 0 <= i < |calls| ==> calls[i].party == Side(re, calls[i].seat)
  }

  lemma BySuit(all: seq<Card>)
    ensures WholePack(all) <==> forall s: Suit, r: Rank :: Count(all, Card(s, r)) == 2
  {
    if forall s: Suit, r: Rank :: Count(all, Card(s, r)) == 2 {
      forall c ensures Count(all, c) == 2 {
        var s, r := c.suit, c.rank;
        assert c == Card(s, r);
        assert Count(all, Card(s, r)) == 2;
      }
    }
  }

  method AuditDeal(hands: seq<seq<Card>>) returns (out: seq<Complaint>)
    requires |hands| == 4
    ensures out == [] <==> ValidDeal(hands)
  {
    out := [];
    for x := 0 to 4
      invariant out == [] <==> forall y :: 0 <= y < x ==> |hands[y]| == HAND
    {
      if |hands[x]| != HAND { out := out + [Complaint(x, WrongHand)]; }
    }
    var all := hands[0] + hands[1] + hands[2] + hands[3];
    forall c
      ensures Count(all, c) == Count(hands[0], c) + Count(hands[1], c) + Count(hands[2], c) + Count(hands[3], c)
    {
      CountSum(hands[0] + hands[1] + hands[2], hands[3], c);
      CountSum(hands[0] + hands[1], hands[2], c);
      CountSum(hands[0], hands[1], c);
    }
    var whole := forall s: Suit, r: Rank :: Count(all, Card(s, r)) == 2;
    BySuit(all);
    if !whole { out := out + [Complaint(-1, WrongDeck)]; }
  }

  method AuditClaims(s: State, hands: seq<seq<Card>>) returns (out: seq<Complaint>)
    requires |s.say| == |hands| == 4
    ensures out == [] <==> MarriagesTrue(s.say, hands) && CallsFit(s.calls, Parties(s, hands).re)
  {
    hide QueensOf;
    out := [];
    for x := 0 to 4
      invariant out == [] <==> forall y :: 0 <= y < x && s.say[y] == Marriage ==> QueensOf(hands, y) == 2
    {
      if s.say[x] == Marriage && QueensOf(hands, x) != 2 { out := out + [Complaint(x, FalseMarriage)]; }
    }
    var re := Parties(s, hands).re;
    ghost var married := out == [];
    for i := 0 to |s.calls|
      invariant out == [] <==> married && forall j :: 0 <= j < i ==> s.calls[j].party == Side(re, s.calls[j].seat)
    {
      if s.calls[i].party != Side(re, s.calls[i].seat) { out := out + [Complaint(s.calls[i].seat, FalseCall)]; }
    }
  }

  /** What the audit looks at, all of it in the state and the revealed hands. */
  ghost predicate Clean(s: State, hands: seq<seq<Card>>)
    requires Inv(s) && |hands| == 4
  {
    SeatedPlays(s);
    && ValidDeal(hands) && AllLegal(Trumps(s.kind), hands, Plays(s)) && MarriagesTrue(s.say, hands)
    && CallsFit(s.calls, Parties(s, hands).re)
  }

  lemma {:induction false} SeatedFlat(tricks: seq<Trick>)
    requires forall k :: 0 <= k < |tricks| ==> TrickOk(tricks[k])
    ensures Seated(Flat(tricks))
  {
    if tricks != [] {
      SeatedFlat(tricks[..|tricks| - 1]);
      assert TrickOk(tricks[|tricks| - 1]);
    }
  }

  lemma SeatedPlays(s: State)
    requires Inv(s)
    ensures Seated(Plays(s))
  {
    hide EyeSum, Flat, AtMostTwice, Sides, TalkOk;
    SeatedFlat(s.tricks);
  }

  method Audit(s: State, hands: seq<seq<Card>>) returns (out: seq<Complaint>)
    requires Inv(s) && |hands| == 4
    ensures out == [] <==> Clean(s, hands)
  {
    hide Inv, ValidDeal, AllLegal, MarriagesTrue, CallsFit, Trumps, Plays, Parties;
    SaysFour(s);
    out := AuditDeal(hands);
    var more := AuditPlays(s, hands);
    var claims := AuditClaims(s, hands);
    out := out + more + claims;
  }

  lemma SaysFour(s: State)
    requires Inv(s)
    ensures |s.say| == 4
  {
  }
}
