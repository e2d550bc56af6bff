/** Caller and callee together, over a channel that may lose, repeat and reorder whatever was ever sent. */
module CallPair {
  import opened Options
  import opened CallSession

  datatype Pair = Pair(a: Sess, b: Sess, toB: set<Msg>, toA: set<Msg>)
  datatype Move = ByCaller(ev: Event, e: Env) | ByCallee(ev: Event, e: Env)

  function Sent(out: seq<Msg>): set<Msg> { set m | m in out }

  predicate Possible(p: Pair, mv: Move) {
    match mv
    case ByCaller(ev, _) => Enabled(p.a, ev) && (ev.Recv? ==> ev.m in p.toA)
    case ByCallee(ev, _) => Enabled(p.b, ev) && (ev.Recv? ==> ev.m in p.toB)
  }

  function Moved(p: Pair, mv: Move, T: Timing): Pair
    requires T.backoff != [] && Possible(p, mv)
  {
    match mv
    case ByCaller(ev, e) => var r := OnEvent(p.a, ev, e, T); p.(a := r.s, toB := p.toB + Sent(r.out))
    case ByCallee(ev, e) => var r := OnEvent(p.b, ev, e, T); p.(b := r.s, toA := p.toA + Sent(r.out))
  }

  // ---------- what either side can hold ----------

  /** A callee at work on an offer. */
  predicate Answering(c: Cont) { c.AwOfferServers? || c.AwRemote? || c.AwFlush? || c.AwCreateAnswer? || c.AwSetAnswer? }

  predicate CallerShape(s: Sess) { s.role == Caller && (s.current.Some? ==> !Answering(s.current.value)) }

  predicate CalleeShape(s: Sess) {
    && s.role == Callee && RestartTask !in s.queue
    && (s.current.Some? ==> !Offering(s.current.value))
    && (s.current.Some? && Answering(s.current.value) ==> s.current.value.epoch > s.answered)
    && CalleeTimers(s.timers)
  }

  predicate CalleeJob(j: Job) { !j.OfferJob? && j != RestartJob && j != RescheduleJob }

  predicate CalleeTimers(ts: map<Name, Timer>) { forall n :: n in ts ==> CalleeJob(ts[n].job) }

  lemma TimersPut(ts: map<Name, Timer>, n: Name, t: Timer)
    requires CalleeTimers(ts) && CalleeJob(t.job)
    ensures CalleeTimers(ts[n := t])
  {
  }

  lemma TimersDrop(ts: map<Name, Timer>, n: Name)
    requires CalleeTimers(ts)
    ensures CalleeTimers(ts - {n})
  {
  }

  /** Everything the callee holds was offered with an epoch of at most k. */
  predicate OffersUpTo(s: Sess, k: int) {
    && s.answered <= k
    && (forall i :: 0 <= i < |s.queue| && s.queue[i].OfferTask? ==> s.queue[i].epoch <= k)
    && (s.current.Some? && Answering(s.current.value) ==> s.current.value.epoch <= k)
  }

  predicate AnswersUpTo(s: Sess, k: int) {
    forall i :: 0 <= i < |s.queue| && s.queue[i].AnswerTask? ==> s.queue[i].epoch <= k
  }

  // ---------- steps of the caller ----------

  /** What a step of the caller may do. */
  predicate CallerMay(s: Sess, r: Res) {
    && CallerShape(r.s) && r.s.epoch >= s.epoch
    && forall m :: m in r.out ==> !m.Answer? && (m.Offer? ==> m.epoch == r.s.epoch)
  }

  lemma CallerLost(s: Sess, T: Timing)
    requires T.backoff != [] && CallerShape(s)
    ensures CallerMay(s, OnLinkLost(s, T)) && OnLinkLost(s, T).s.queue == s.queue
  {
  }

  lemma CallerContinue(s: Sess, c: Cont, e: Env, T: Timing)
    requires T.backoff != [] && CallerShape(s) && s.current == None && !Answering(c)
    ensures CallerMay(s, Continue(s, c, e, T)) && Continue(s, c, e, T).s.queue == s.queue
  {
    if Offering(c) {
      CallerOffer(s, c, e, T);
      hide ContinueOffer;
    }
  }

  lemma CallerOffer(s: Sess, c: Cont, e: Env, T: Timing)
    requires CallerShape(s) && s.current == None && Offering(c)
    ensures CallerMay(s, ContinueOffer(s, c, e, T)) && ContinueOffer(s, c, e, T).s.queue == s.queue
  {
  }

  /** A timer that does not report a lost link leaves epochs and the running task alone. */
  lemma FireFrame(s: Sess, name: Name, e: Env, T: Timing)
    requires T.backoff != [] && name in s.timers && s.timers[name].job != ConnectJob && s.timers[name].job != GraceJob
    ensures var r, j := OnFire(s, name, e, T), s.timers[name].job;
      && r.s.role == s.role && r.s.epoch == s.epoch && r.s.answered == s.answered && r.s.current == s.current
      && r.s.queue == s.queue + (if j == RestartJob then [RestartTask] else [])
  {
    hide OnLinkLost, Backoff, Finish, Max;
    var j := s.timers[name].job;
    if j == RingJob || j == WindowJob { FinishFrame(Spent(s, name), j == WindowJob || s.role == Caller); }
    assert s.queue + [] == s.queue;
  }

  lemma FinishFrame(s: Sess, notify: bool)
    ensures var r := Finish(s, notify);
      r.s.role == s.role && r.s.epoch == s.epoch && r.s.answered == s.answered && r.s.current == s.current
        && r.s.queue == s.queue
  {
  }

  lemma FireSends(s: Sess, name: Name, e: Env, T: Timing, m: Msg)
    requires T.backoff != [] && name in s.timers && s.timers[name].job != ConnectJob && s.timers[name].job != GraceJob
    requires m in OnFire(s, name, e, T).out
    ensures !m.Answer? && (m.Offer? ==> s.timers[name].job.OfferJob? && m.epoch == s.epoch)
  {
    hide OnLinkLost, Backoff;
  }

  lemma FireTimers(s: Sess, name: Name, e: Env, T: Timing)
    requires T.backoff != [] && name in s.timers && CalleeTimers(s.timers)
    requires s.timers[name].job !in {ConnectJob, GraceJob}
    ensures CalleeTimers(OnFire(s, name, e, T).s.timers)
  {
    hide OnFire, CalleeTimers;
    TimersGet(s.timers, name);
    var t := s.timers[name];
    FiredTimers(s, name, e, T);
    TimersPut(s.timers, name, t.(armed := false));
    TimersPut(s.timers, name, t.(deadline := s.now + if t.job == StatsJob then T.stats else T.signalRetry));
    NoTimers();
  }

  lemma FiredTimers(s: Sess, name: Name, e: Env, T: Timing)
    requires T.backoff != [] && name in s.timers
    requires CalleeJob(s.timers[name].job) && s.timers[name].job !in {ConnectJob, GraceJob}
    ensures var t := s.timers[name];
      OnFire(s, name, e, T).s.timers ==
        if t.job == RingJob || t.job == WindowJob then (if Over(s) then s.timers[name := t.(armed := false)] else map[])
        else s.timers[name := t.(deadline := s.now + if t.job == StatsJob then T.stats else T.signalRetry)]
  {
    hide OnLinkLost, Backoff, Max, CalleeTimers;
  }

  lemma TimersGet(ts: map<Name, Timer>, n: Name)
    requires CalleeTimers(ts) && n in ts
    ensures CalleeJob(ts[n].job)
  {
  }

  lemma NoTimers()
    ensures CalleeTimers(map[])
  {
  }

  lemma CallerFire(s: Sess, name: Name, e: Env, T: Timing)
    requires T.backoff != [] && CallerShape(s) && name in s.timers
    ensures CallerMay(s, OnFire(s, name, e, T))
    ensures forall k :: AnswersUpTo(s, k) ==> AnswersUpTo(OnFire(s, name, e, T).s, k)
  {
    hide OnLinkLost, Backoff;
    var j := s.timers[name].job;
    if j == ConnectJob || j == GraceJob {
      CallerLost(Spent(s, name), T);
    } else {
      hide OnFire;
      FireFrame(s, name, e, T);
      forall m | m in OnFire(s, name, e, T).out
        ensures !m.Answer? && (m.Offer? ==> m.epoch == s.epoch)
      {
        FireSends(s, name, e, T, m);
      }
    }
  }

  lemma CallerMessage(s: Sess, m: Msg, T: Timing, k: int)
    requires T.backoff != [] && CallerShape(s) && AnswersUpTo(s, k) && (m.Answer? ==> m.epoch <= k)
    ensures CallerMay(s, OnMessage(s, m, T)) && AnswersUpTo(OnMessage(s, m, T).s, k)
  {
    hide OnLinkLost;
    CallerLost(s, T);
  }

  lemma CallerBegin(s: Sess, e: Env, T: Timing, k: int)
    requires CallerShape(s) && s.current == None && s.queue != [] && AnswersUpTo(s, k)
    ensures var r := Begin(s.(queue := s.queue[1..]), s.queue[0], e, T); CallerMay(s, r) && AnswersUpTo(r.s, k)
  {
  }

  lemma CallerSample(s: Sess, e: Env, T: Timing)
    requires T.backoff != [] && CallerShape(s)
    ensures CallerMay(s, AfterSample(s, e, T)) && AfterSample(s, e, T).s.queue == s.queue
  {
    hide OnLinkLost;
    CallerLost(s.(lastPackets := e.packets), T);
  }

  lemma CallerStep(s: Sess, ev: Event, e: Env, T: Timing, k: int)
    requires T.backoff != [] && CallerShape(s) && Enabled(s, ev) && AnswersUpTo(s, k)
    requires (ev.Recv? && ev.m.Answer? ==> ev.m.epoch <= k)
    ensures CallerMay(s, OnEvent(s, ev, e, T)) && AnswersUpTo(OnEvent(s, ev, e, T).s, k)
  {
    hide OnLinkLost, OnMessage, OnFire, Begin, Continue, AfterSample;
    match ev {
      case Recv(m) => CallerMessage(s, m, T, k);
      case Fire(name) => CallerFire(s, name, e, T);
      case RunTask => CallerBegin(s, e, T, k);
      case Resume => CallerContinue(s.(current := None), s.current.value, e, T);
      case Sampled => CallerSample(s.(watchers := s.watchers - 1), e, T);
      case NetworkChanged => CallerLost(s.(lastOfferAt := 0), T);
      case PcFailed => CallerLost(s, T);
      case _ =>
    }
  }

  // ---------- steps of the callee ----------

  predicate CalleeMay(s: Sess, r: Res, k: int) {
    && CalleeShape(r.s) && r.s.answered >= s.answered && OffersUpTo(r.s, k)
    && forall m :: m in r.out ==> !m.Offer? && (m.Answer? ==> m.epoch <= r.s.answered)
  }

  predicate CalleeHas(s: Sess, k: int) { CalleeShape(s) && OffersUpTo(s, k) }

  lemma LostTimers(s: Sess, T: Timing)
    requires T.backoff != [] && CalleeTimers(s.timers) && s.role == Callee
    ensures CalleeTimers(OnLinkLost(s, T).s.timers)
  {
    hide CalleeTimers;
    var t := s.timers - {TConnect};
    var w := Timer(s.now + T.window, true, WindowJob);
    var r := Timer(s.now + T.signalRetry, true, AskJob);
    TimersDrop(s.timers, TConnect);
    TimersPut(t, TWindow, w);
    TimersPut(t[TWindow := w], TRestart, r);
    TimersPut(s.timers, TRestart, r);
  }

  lemma CalleeLost(s: Sess, T: Timing, k: int)
    requires T.backoff != [] && CalleeHas(s, k)
    ensures CalleeMay(s, OnLinkLost(s, T), k)
  {
    hide CalleeTimers, After, Clear;
    LostTimers(s, T);
    LostFrame(s, T);
    hide OnLinkLost;
  }

  lemma LostFrame(s: Sess, T: Timing)
    requires T.backoff != [] && s.role == Callee
    ensures var r := OnLinkLost(s, T);
      && r.s.role == s.role && r.s.queue == s.queue && r.s.current == s.current && r.s.answered == s.answered
      && forall m :: m in r.out ==> !m.Offer? && !m.Answer?
  {
    hide Backoff;
  }

  lemma SameOffers(s: Sess, s': Sess, k: int)
    requires OffersUpTo(s, k) && s'.queue == s.queue && s'.answered == s.answered
    requires s'.current.Some? ==> !Answering(s'.current.value)
    ensures OffersUpTo(s', k)
  {
  }

  /** While preparing the callee neither offers nor answers. */
  lemma PrepareFrame(s: Sess, c: Cont, e: Env, T: Timing)
    requires s.role == Callee && s.current == None && c in {AwMedia, AwServers, AwPrepared}
    ensures var r := ContinuePrepare(s, c, e, T);
      && r.s.role == Callee && r.s.queue == s.queue && r.s.answered == s.answered
      && (r.s.current.Some? ==> !Answering(r.s.current.value) && !Offering(r.s.current.value))
      && forall m :: m in r.out ==> !m.Offer? && !m.Answer?
  {
  }

  lemma PrepareTimers(s: Sess, c: Cont, e: Env, T: Timing)
    requires s.role == Callee && s.current == None && c in {AwMedia, AwServers, AwPrepared} && CalleeTimers(s.timers)
    ensures CalleeTimers(ContinuePrepare(s, c, e, T).s.timers)
  {
    hide CalleeTimers;
    NoTimers();
    TimersPut(s.timers, TStats, Timer(s.now + T.stats, true, StatsJob));
    TimersPut(s.timers, TConnect, Timer(s.now + T.connect, true, ConnectJob));
  }

  lemma CalleePrepare(s: Sess, c: Cont, e: Env, T: Timing, k: int)
    requires CalleeHas(s, k) && s.current == None && c in {AwMedia, AwServers, AwPrepared}
    ensures CalleeMay(s, ContinuePrepare(s, c, e, T), k)
  {
    hide CalleeTimers, OffersUpTo, ContinuePrepare;
    PrepareFrame(s, c, e, T);
    PrepareTimers(s, c, e, T);
    SameOffers(s, ContinuePrepare(s, c, e, T).s, k);
  }

  lemma CalleeAnswer(s: Sess, c: Cont, e: Env, k: int)
    requires CalleeHas(s, k) && s.current == None && (Answering(c) ==> s.answered < c.epoch <= k)
    ensures CalleeMay(s, ContinueAnswer(s, c, e), k)
  {
    hide CalleeTimers;
    TimersDrop(s.timers, TRestart);
  }

  lemma CalleeContinue(s: Sess, c: Cont, e: Env, T: Timing, k: int)
    requires T.backoff != [] && CalleeHas(s, k) && s.current == None && !Offering(c)
    requires (Answering(c) ==> s.answered < c.epoch <= k)
    ensures CalleeMay(s, Continue(s, c, e, T), k)
  {
    hide ContinuePrepare, ContinueAnswer, CalleeHas, CalleeMay;
    if c in {AwMedia, AwServers, AwPrepared} { CalleePrepare(s, c, e, T, k); } else { CalleeAnswer(s, c, e, k); }
  }

  lemma CalleeFire(s: Sess, name: Name, e: Env, T: Timing, k: int)
    requires T.backoff != [] && CalleeHas(s, k) && name in s.timers
    ensures CalleeMay(s, OnFire(s, name, e, T), k)
  {
    hide OnLinkLost, Backoff;
    var j := s.timers[name].job;
    if j == ConnectJob || j == GraceJob {
      TimersPut(s.timers, name, s.timers[name].(armed := false));
      hide CalleeTimers;
      CalleeLost(Spent(s, name), T, k);
    } else {
      hide OnFire;
      FireFrame(s, name, e, T);
      FireTimers(s, name, e, T);
      assert CalleeJob(s.timers[name].job);
      hide CalleeTimers;
      forall m | m in OnFire(s, name, e, T).out ensures !m.Answer? && !m.Offer? { FireSends(s, name, e, T, m); }
    }
  }

  lemma CalleeEnqueue(s: Sess, t: Task, k: int)
    requires CalleeHas(s, k) && t != RestartTask && (t.OfferTask? ==> t.epoch <= k)
    ensures CalleeHas(Enqueue(s, t), k)
  {
    hide CalleeTimers;
  }

  lemma CalleeInvited(s: Sess, T: Timing, k: int)
    requires T.backoff != [] && CalleeHas(s, k)
    ensures CalleeMay(s, OnMessage(s, Invite, T), k) && CalleeMay(s, OnMessage(s, Ringing, T), k)
  {
    hide OnLinkLost, CalleeTimers;
    TimersPut(s.timers, TRing, Timer(s.now + T.ring, true, RingJob));
    TimersDrop(s.timers, TInvite);
  }

  lemma CalleeMessage(s: Sess, m: Msg, T: Timing, k: int)
    requires T.backoff != [] && CalleeHas(s, k) && (m.Offer? ==> m.epoch <= k)
    ensures CalleeMay(s, OnMessage(s, m, T), k)
  {
    assert CalleeTimers(map[]);
    hide OnLinkLost, CalleeTimers;
    if m.Offer? {
      CalleeEnqueue(s, OfferTask(m.epoch), k);
    } else if m.Answer? {
      CalleeEnqueue(s, AnswerTask(m.epoch), k);
    } else if m.Invite? || m.Ringing? {
      CalleeInvited(s, T, k);
    }
  }

  lemma CalleeBegin(s: Sess, e: Env, T: Timing, k: int)
    requires CalleeHas(s, k) && s.current == None && s.queue != []
    ensures CalleeMay(s, Begin(s.(queue := s.queue[1..]), s.queue[0], e, T), k)
  {
    hide CalleeTimers;
  }

  lemma CalleeSample(s: Sess, e: Env, T: Timing, k: int)
    requires T.backoff != [] && CalleeHas(s, k)
    ensures CalleeMay(s, AfterSample(s, e, T), k)
  {
    hide OnLinkLost, CalleeTimers;
    TimersDrop(s.timers, TRestart);
    TimersDrop(s.timers - {TRestart}, TWindow);
    TimersDrop(s.timers - {TRestart} - {TWindow}, TOffer);
    CalleeLost(s.(lastPackets := e.packets), T, k);
  }

  /** The user's actions and the connection's own events. */
  lemma CalleeOwn(s: Sess, ev: Event, e: Env, T: Timing, k: int)
    requires T.backoff != [] && CalleeHas(s, k) && Enabled(s, ev)
    requires ev in {UserAccept, UserDecline, Hangup, PcConnected, PcDisconnected, Candidate} || ev.Tick?
    ensures CalleeMay(s, OnEvent(s, ev, e, T), k)
  {
    hide CalleeTimers, OffersUpTo;
    NoTimers();
    var t := s.timers - {TConnect} - {TGrace};
    TimersDrop(s.timers, TRing);
    TimersDrop(s.timers, TConnect);
    TimersDrop(s.timers - {TConnect}, TGrace);
    TimersDrop(t, TRestart);
    TimersDrop(t - {TRestart}, TWindow);
    TimersDrop(t - {TRestart} - {TWindow}, TOffer);
    TimersPut(s.timers, TGrace, Timer(s.now + T.grace, true, GraceJob));
    OwnOffers(s, ev, e, T, k);
  }

  lemma OwnOffers(s: Sess, ev: Event, e: Env, T: Timing, k: int)
    requires T.backoff != [] && OffersUpTo(s, k) && Enabled(s, ev)
    requires ev in {UserAccept, UserDecline, Hangup, PcConnected, PcDisconnected, Candidate} || ev.Tick?
    ensures OffersUpTo(OnEvent(s, ev, e, T).s, k)
  {
    hide OnLinkLost, OnMessage, OnFire, Begin, Continue, AfterSample;
  }

  lemma CalleeStep(s: Sess, ev: Event, e: Env, T: Timing, k: int)
    requires T.backoff != [] && CalleeHas(s, k) && Enabled(s, ev) && (ev.Recv? && ev.m.Offer? ==> ev.m.epoch <= k)
    ensures CalleeMay(s, OnEvent(s, ev, e, T), k)
  {
    hide OnLinkLost, OnMessage, OnFire, Begin, Continue, AfterSample, CalleeTimers;
    match ev
    case Recv(m) => CalleeMessage(s, m, T, k);
    case Fire(name) => CalleeFire(s, name, e, T, k);
    case RunTask => CalleeBegin(s, e, T, k);
    case Resume => CalleeContinue(s.(current := None), s.current.value, e, T, k);
    case Sampled => CalleeSample(s.(watchers := s.watchers - 1), e, T, k);
    case NetworkChanged => CalleeLost(s.(lastOfferAt := 0), T, k);
    case PcFailed => CalleeLost(s, T, k);
    case Dial =>
    case _ => CalleeOwn(s, ev, e, T, k);
  }

  // ---------- both together ----------

  /**
    No offer or answer that was ever sent, or is being worked on, is ahead of the caller; no answer is ahead of the
    callee.
   */
  ghost predicate PairOk(p: Pair) {
    && CallerShape(p.a) && CalleeShape(p.b)
    && OffersUpTo(p.b, p.a.epoch) && AnswersUpTo(p.a, p.b.answered)
    && (forall m :: m in p.toB && m.Offer? ==> m.epoch <= p.a.epoch)
    && (forall m :: m in p.toA && m.Answer? ==> m.epoch <= p.b.answered)
  }

  lemma PairStep(p: Pair, mv: Move, T: Timing)
    requires T.backoff != [] && PairOk(p) && Possible(p, mv)
    ensures var q := Moved(p, mv, T); PairOk(q) && q.b.answered >= p.b.answered && q.a.epoch >= p.a.epoch
  {
    hide OnEvent, CallerShape, CalleeShape, Enabled;
    if mv.ByCaller? {
      CallerStep(p.a, mv.ev, mv.e, T, p.b.answered);
    } else {
      CalleeStep(p.b, mv.ev, mv.e, T, p.a.epoch);
    }
  }

  /** The caller takes in an answer: the one place that acts on it. */
  predicate TakesAnswer(s: Sess, ev: Event, e: Env) {
    ev == RunTask && Enabled(s, ev) && s.queue[0].AnswerTask? && s.role == Caller && s.pc && s.queue[0].epoch == s.epoch
      && e.localOffer
  }

  /** Whenever the caller takes in an answer, the callee has answered exactly the caller's current epoch. */
  lemma TakenAnswerIsCurrent(p: Pair, ev: Event, e: Env)
    requires PairOk(p) && TakesAnswer(p.a, ev, e)
    ensures p.b.answered == p.a.epoch
  {
  }

  ghost predicate PairRuns(ps: seq<Pair>, mvs: seq<Move>, T: Timing)
    requires T.backoff != []
  {
    && |ps| == |mvs| + 1
    && ps[0].a == Fresh(Caller, ps[0].a.now) && ps[0].b == Fresh(Callee, ps[0].b.now) && ps[0].toA == ps[0].toB == {}
    && forall i :: 0 <= i < |mvs| ==> Possible(ps[i], mvs[i]) && ps[i + 1] == Moved(ps[i], mvs[i], T)
  }

  lemma {:induction false} PairRunKeeps(ps: seq<Pair>, mvs: seq<Move>, T: Timing, i: nat)
    requires T.backoff != [] && PairRuns(ps, mvs, T) && i < |ps|
    ensures PairOk(ps[i])
  {
    if i == 0 {
      assert PairOk(ps[0]);
    } else {
      hide PairOk, Moved, Possible;
      PairRunKeeps(ps, mvs, T, i - 1);
      PairStep(ps[i - 1], mvs[i - 1], T);
    }
  }

  /**
    On every run: the callee's answered epoch never falls, nothing ever sent is ahead of the caller, and an answer
    the caller takes in is for the epoch that the callee answered last.
   */
  lemma {:induction false} EpochAgreement(ps: seq<Pair>, mvs: seq<Move>, T: Timing, i: nat, j: nat)
    requires T.backoff != [] && PairRuns(ps, mvs, T) && i <= j < |ps|
    ensures ps[i].b.answered <= ps[j].b.answered && ps[i].a.epoch <= ps[j].a.epoch
    ensures forall m :: (m in ps[j].toB && m.Offer?) || (m in ps[j].toA && m.Answer?) ==> m.epoch <= ps[j].a.epoch
    ensures j < |mvs| && mvs[j].ByCaller? && TakesAnswer(ps[j].a, mvs[j].ev, mvs[j].e) ==>
      ps[j].b.answered == ps[j].a.epoch
    decreases j
  {
    hide Moved, Possible, TakesAnswer, PairRuns;
    PairRunKeeps(ps, mvs, T, j);
    Monotone(ps, mvs, T, i, j);
    if j < |mvs| && mvs[j].ByCaller? && TakesAnswer(ps[j].a, mvs[j].ev, mvs[j].e) {
      TakenAnswerIsCurrent(ps[j], mvs[j].ev, mvs[j].e);
    }
  }

  lemma {:induction false} Monotone(ps: seq<Pair>, mvs: seq<Move>, T: Timing, i: nat, j: nat)
    requires T.backoff != [] && PairRuns(ps, mvs, T) && i <= j < |ps|
    ensures ps[i].b.answered <= ps[j].b.answered && ps[i].a.epoch <= ps[j].a.epoch
    decreases j
  {
    hide PairOk, Moved, Possible;
    if i < j {
      Monotone(ps, mvs, T, i, j - 1);
      PairRunKeeps(ps, mvs, T, j - 1);
      PairStep(ps[j - 1], mvs[j - 1], T);
    }
  }
}
