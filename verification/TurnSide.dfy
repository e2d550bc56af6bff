/** One phone's side of a turn game as the object it is: fields changed by messages and ticks. */
module TurnSide {
  import opened Options
  import opened Discs
  import opened Reals
  import opened TurnGames

  class Side {
    const g: Game
    const me: int
    var started: bool
    var over: bool
    var st: Shared
    var mine: nat
    var theirs: nat
    var queue: seq<Throw>
    var rejected: nat
    var acc: real

    /** The side as a value. */
    ghost function Now(): Phone
      reads this
    {
      Phone(me, started, over, st, mine, theirs, queue, rejected)
    }

    constructor (g: Game, me: int)
      ensures Now() == Fresh(g, me) && this.g == g && acc == 0.0
    {
      this.g, this.me := g, me;
      started, over, st, mine, theirs, queue, rejected, acc := false, false, FirstRound(g), 0, 0, [], 0, 0.0;
    }

    method Accept(m: Message, root: real -> real)
      modifies this
      ensures Now() == Receive(g, old(Now()), m, root) && acc == old(acc)
    {
      hide FromX, TooFast, TurnOf;
      if over { return; }
      if m.n != st.n + |queue| || m.t.x != FromX(g, m.t.x) || TooFast(g, m.t, root) {
        rejected := rejected + 1;
        return;
      }
      if !st.rolling && queue == [] {
        var who := TurnOf(g, st, st.n);
        if who == me || !Towards(who, m.t) {
          rejected := rejected + 1;
          return;
        }
      } else if |queue| >= 2 {
        rejected := rejected + 1;
        return;
      }
      queue := queue + [m.t];
    }

    /** The waiting throws, until one of them rolls. */
    method WorkOffQueue(root: real -> real)
      modifies this
      ensures Now() == WorkOff(g, old(Now()), root) && acc == old(acc)
    {
      hide Sq, Shrunk, Stone, TurnOf;
      while started && !st.rolling && queue != []
        invariant WorkOff(g, Now(), root) == WorkOff(g, old(Now()), root) && acc == old(acc)
        decreases |queue|
      {
        var q, who := queue[0], TurnOf(g, st, st.n);
        queue := queue[1..];
        if who == me || !Towards(who, q) {
          rejected := rejected + 1;
        } else {
          st := Launched(g, st, who, q, root);
        }
      }
    }

    /** The point rules and the next round, when nothing moves any more. */
    method SettleThrow(root: real -> real)
      modifies this
      ensures Now() == Settle(g, old(Now()), root) && !st.rolling
    {
      StillAfter(g, Now(), root);
      var q := Settle(g, Phone(me, started, over, st, mine, theirs, queue, rejected), root);
      SettlePost(g, Now(), root);
      st, over, mine, theirs := q.st, q.over, q.mine, q.theirs;
      acc := 0.0;
      hide Settle;
    }

    /** As many steps as the time allows, in fixed steps; how many is reported as k. */
    method Roll(root: real -> real) returns (ghost k: nat)
      requires IsRoot(root)
      modifies this
      ensures Now() == Rolled(g, old(Now()), k, root)
    {
      hide IsRoot, Discs.Step, Settle, StepsLeft, Rolled;
      k := 0;
      ghost var was := Now();
      NotRolled(g, was, root);
      while acc >= STEP && st.rolling
        invariant Now() == Rolled(g, was, k, root)
        decreases st.rolling, StepsLeft(acc)
      {
        RolledNext(g, was, k, root);
        OneStepLess(acc);
        acc := acc - STEP;
        OneRolled(g, Now(), root);
        var r := Discs.Step(RulesOf(g), st.list, root);
        st := st.(list := r.list);
        if !r.moving { SettleThrow(root); }
        k := k + 1;
      }
    }

    /** One tick of dt seconds. */
    method Advance(dt: real, input: Option<Throw>, root: real -> real) returns (sent: Option<Message>, ghost k: nat)
      requires IsRoot(root)
      modifies this
      ensures Ticked(Now(), sent) == Tick(g, old(Now()), input, k, root)
    {
      hide IsRoot, Launched, Rolled, WorkOff, FromX;
      sent, k := None, 0;
      if over { return; }
      WorkOffQueue(root);
      if started && !over && !st.rolling && st.turn == me && queue == [] && input.Some? && Counts(me, input.value) {
        var t := input.value.(x := FromX(g, input.value.x));
        sent := Some(Message(st.n, t));
        st := Launched(g, st, me, t, root);
      }
      if st.rolling { acc := acc + if dt < 0.25 then dt else 0.25; }
      k := Roll(root);
    }
  }

  /** How many fixed steps the time saved up allows. */
  ghost function StepsLeft(acc: real): nat { if acc < STEP then 0 else 1 + ((acc - STEP) / STEP).Floor }

  lemma OneStepLess(acc: real)
    requires acc >= STEP
    ensures StepsLeft(acc - STEP) < StepsLeft(acc)
  {
  }

  lemma NotRolled(g: Game, ph: Phone, root: real -> real)
    requires IsRoot(root)
    ensures Rolled(g, ph, 0, root) == ph
  {
  }

  lemma OneRolled(g: Game, ph: Phone, root: real -> real)
    requires IsRoot(root) && ph.st.rolling
    ensures var r := Discs.Step(RulesOf(g), ph.st.list, root);
      var q := ph.(st := ph.st.(list := r.list));
      Rolled(g, ph, 1, root) == if r.moving then q else Settle(g, q, root)
  {
    hide IsRoot, Discs.Step, Settle;
  }

  lemma {:induction false} RolledNext(g: Game, ph: Phone, k: nat, root: real -> real)
    requires IsRoot(root)
    ensures Rolled(g, ph, k + 1, root) == Rolled(g, Rolled(g, ph, k, root), 1, root)
    decreases k
  {
    hide IsRoot, Discs.Step, Settle;
    if k > 0 && ph.st.rolling {
      var r := Discs.Step(RulesOf(g), ph.st.list, root);
      var q := ph.(st := ph.st.(list := r.list));
      if r.moving { RolledNext(g, q, k - 1, root); } else { StillAfter(g, q, root); }
    }
  }
}
