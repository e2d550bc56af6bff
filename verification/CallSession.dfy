/**
  One side of a call as a state machine. A step is whatever runs without interruption: a handler, a timer callback, or
  a queued task up to its next await. What the peer connection, the microphone and the servers answer is chosen freely.
 */
module CallSession {
  import opened Options

  datatype Role = Caller | Callee
  datatype St = Idle | Calling | RingingOut | RingingIn | Connecting | Connected | Reconnecting | Ended
  datatype Msg = Invite | Ringing | Accept | Decline | Busy | Bye | Offer(epoch: nat) | Answer(epoch: nat)
      | Ice(epoch: nat) | Restart(epoch: nat)

  datatype Name = TInvite | TRing | TConnect | TGrace | TWindow | TRestart | TOffer | TStats
  datatype Job = InviteJob | RingJob | ConnectJob | GraceJob | WindowJob | RestartJob | RescheduleJob | AskJob
      | OfferJob(epoch: nat) | StatsJob
  datatype Timer = Timer(deadline: nat, armed: bool, job: Job)

  datatype Task = PrepareTask | OfferTask(epoch: nat) | AnswerTask(epoch: nat) | RestartTask

  /** Where the running task waits. */
  datatype Cont =
    | AwMedia | AwServers | AwPrepared
    | AwRollback(restart: bool) | AwPeer(restart: bool) | AwOffer(restart: bool) | AwSetOffer(restart: bool)
    | AwOffered | AwRestartServers
    | AwOfferServers(epoch: nat) | AwRemote(epoch: nat) | AwFlush(epoch: nat)
    | AwCreateAnswer(epoch: nat) | AwSetAnswer(epoch: nat)
    | AwAnswerRemote | AwAnswerFlush
  datatype Timing = Timing(signalRetry: nat, minEpochGap: nat, ring: nat, connect: nat, grace: nat, window: nat,
      backoff: seq<nat>, stats: nat, stall: nat)

  datatype Sess = Sess(
    role: Role, st: St, pc: bool, stream: bool, epoch: nat, answered: int, timers: map<Name, Timer>, queue: seq<Task>,
    current: Option<Cont>, watchers: nat, now: nat, attempt: nat, startedAt: nat, epochAtLoss: nat, lastOfferAt: nat,
    lastPackets: nat, lastPacketsAt: nat, reconnects: nat)

  /** The world's answers: did the awaited call succeed; what does the connection report about its own descriptions. */
  datatype Env = Env(ok: bool, localOffer: bool, given: bool, linked: bool, packets: nat)

  datatype Event =
    | Dial | UserAccept | UserDecline | Hangup | NetworkChanged
    | Recv(m: Msg) | Fire(name: Name) | PcConnected | PcFailed | PcDisconnected | Candidate
    | RunTask | Resume | Sampled | Tick(dt: nat)

  datatype Res = Res(s: Sess, out: seq<Msg>)

  function Fresh(role: Role, now: nat): Sess {
    Sess(role, Idle, false, false, 0, -1, map[], [], None, 0, now, 0, 0, 0, 0, 0, 0, 0)
  }

  predicate Over(s: Sess) { s.st == Ended }

  function After(s: Sess, name: Name, ms: nat, job: Job): Sess {
    s.(timers := s.timers[name := Timer(s.now + ms, true, job)])
  }

  function Clear(s: Sess, name: Name): Sess { s.(timers := s.timers - {name}) }

  function Enqueue(s: Sess, t: Task): Sess { s.(queue := s.queue + [t]) }

  function Finish(s: Sess, notify: bool): Res {
    if Over(s) then Res(s, [])
    else Res(s.(timers := map[], stream := false, pc := false, st := Ended), if notify then [Bye] else [])
  }

  // ---------- losing and finding the link ----------

  function Backoff(s: Sess, T: Timing): nat
    requires T.backoff != []
  {
    if s.attempt < |T.backoff| then T.backoff[s.attempt] else T.backoff[|T.backoff| - 1]
  }

  function ScheduleRestart(s: Sess, T: Timing): Sess
    requires T.backoff != []
  {
    After(s, TRestart, Backoff(s, T), RestartJob)
  }

  function EnterReconnecting(s: Sess, T: Timing): Sess {
    if s.st == Reconnecting then s
    else After(Clear(s, TConnect).(st := Reconnecting, startedAt := s.now, epochAtLoss := s.epoch), TWindow, T.window,
      WindowJob)
  }

  function OnLinkLost(s: Sess, T: Timing): Res
    requires T.backoff != []
  {
    if Over(s) || !s.pc then Res(s, [])
    else
      var s1 := EnterReconnecting(s, T);
      if TRestart in s1.timers then Res(s1, [])
      else if s1.role == Callee then
        if s1.answered > s1.epochAtLoss then Res(s1, [])
        else Res(After(s1, TRestart, T.signalRetry, AskJob), [Restart(s1.epoch)])
      else Res(ScheduleRestart(s1, T), [])
  }

  function MarkConnected(s: Sess): Sess {
    Clear(Clear(Clear(s, TRestart), TWindow), TOffer).(attempt := 0, startedAt := 0, lastPacketsAt := s.now, st :=
      Connected)
  }

  predicate Renegotiated(s: Sess, linked: bool) {
    linked && s.epoch > s.epochAtLoss && (s.role == Caller || s.answered == s.epoch)
  }

  function AfterSample(s: Sess, e: Env, T: Timing): Res
    requires T.backoff != []
  {
    var moved := e.packets > s.lastPackets;
    var s1 := s.(lastPackets := e.packets);
    if moved then
      var s2 := s1.(lastPacketsAt := s.now);
      if s.st == Reconnecting && Renegotiated(s2, e.linked) then
        Res(MarkConnected(s2.(reconnects := s.reconnects + 1)), [])
      else Res(s2, [])
    else if s.st == Connected && s.now > s.lastPacketsAt + T.stall then OnLinkLost(s1, T)
    else Res(s1, [])
  }

  // ---------- timers ----------

  function Rearmed(s: Sess, name: Name, ms: nat): Sess
    requires name in s.timers
  {
    s.(timers := s.timers[name := s.timers[name].(deadline := s.now + ms)])
  }

  function Spent(s: Sess, name: Name): Sess
    requires name in s.timers
  {
    s.(timers := s.timers[name := s.timers[name].(armed := false)])
  }

  function Max(a: nat, b: nat): nat { if a < b then b else a }

  function OnFire(s: Sess, name: Name, e: Env, T: Timing): Res
    requires T.backoff != [] && name in s.timers
  {
    match s.timers[name].job
    case InviteJob => Res(Rearmed(s, name, T.signalRetry), [Invite])
    case RingJob => Finish(Spent(s, name), s.role == Caller)
    case ConnectJob => OnLinkLost(Spent(s, name), T)
    case GraceJob => OnLinkLost(Spent(s, name), T)
    case WindowJob => Finish(Spent(s, name), true)
    case RestartJob =>
      var s1 := Enqueue(Clear(s, TRestart).(attempt := s.attempt + 1), RestartTask);
      Res(After(s1, TRestart, Max(2 * T.signalRetry, Backoff(s1, T)), RescheduleJob), [])
    case RescheduleJob => Res(ScheduleRestart(Clear(s, TRestart), T), [])
    case AskJob => Res(Rearmed(s, name, T.signalRetry), [Restart(s.epoch)])
    case OfferJob(epoch) =>
      Res(Rearmed(s, name, T.signalRetry), if s.pc && e.localOffer && s.epoch == epoch then [Offer(epoch)] else [])
    case StatsJob => Res(Rearmed(s, name, T.stats).(watchers := s.watchers + if s.pc && !Over(s) then 1 else 0), [])
  }

  // ---------- messages ----------

  function OnMessage(s: Sess, m: Msg, T: Timing): Res
    requires T.backoff != []
  {
    if Over(s) then Res(s, [])
    else match m
      case Invite =>
        if s.role == Caller then Res(s, [])
        else if s.st == Idle then Res(After(s.(st := RingingIn), TRing, T.ring, RingJob), [Ringing])
        else Res(s, [Ringing])
      case Ringing => if s.st == Calling then Res(Clear(s, TInvite).(st := RingingOut), []) else Res(s, [])
      case Accept =>
        if s.role != Caller || (s.st != Calling && s.st != RingingOut) then Res(s, [])
        else Res(Enqueue(Clear(Clear(s, TInvite), TRing).(st := Connecting), PrepareTask), [])
      case Decline => Finish(s, false)
      case Busy => Finish(s, false)
      case Bye => Finish(s, false)
      case Offer(epoch) => Res(Enqueue(s, OfferTask(epoch)), [])
      case Answer(epoch) => Res(Enqueue(s, AnswerTask(epoch)), [])
      case Ice(epoch) => Res(s, [])
      case Restart(epoch) => if s.role == Caller && epoch >= s.epoch then OnLinkLost(s, T) else Res(s, [])
  }

  // ---------- queued tasks ----------

  function Wait(s: Sess, c: Cont): Sess { s.(current := Some(c)) }

  /** sendOffer has returned: a restart is done, the first connection still arms its time limit. */
  function Offered(s: Sess, restart: bool): Sess { s.(current := if restart then None else Some(AwOffered)) }

  function OfferBegins(s: Sess, restart: bool): Sess {
    Wait(s.(epoch := s.epoch + (if restart then 1 else 0), lastOfferAt := s.now), AwPeer(restart))
  }

  function SendOffer(s: Sess, restart: bool, e: Env): Sess {
    if !s.pc || Over(s) then Offered(s, restart)
    else if e.localOffer then Wait(s, AwRollback(restart))
    else OfferBegins(s, restart)
  }

  function Begin(s: Sess, t: Task, e: Env, T: Timing): Res {
    match t
    case PrepareTask => Res(Wait(s, AwMedia), [])
    case OfferTask(epoch) =>
      if s.role != Callee || !s.pc || epoch < s.answered then Res(s, [])
      else if epoch == s.answered then Res(s, [Answer(epoch)])
      else if !e.given && epoch > 0 then Res(Wait(s, AwOfferServers(epoch)), [])
      else Res(Wait(s.(epoch := epoch), AwRemote(epoch)), [])
    case AnswerTask(epoch) =>
      if s.role != Caller || !s.pc || epoch != s.epoch || !e.localOffer then Res(s, [])
      else Res(Wait(Clear(s, TOffer), AwAnswerRemote), [])
    case RestartTask =>
      if Over(s) || !s.pc || (e.localOffer && s.now < s.lastOfferAt + T.minEpochGap) then Res(s, [])
      else Res(Wait(s, AwRestartServers), [])
  }

  /** Opening the microphone and the connection. */
  function ContinuePrepare(s: Sess, c: Cont, e: Env, T: Timing): Res
    requires c in {AwMedia, AwServers, AwPrepared}
  {
    match c
    case AwMedia =>
      if !e.ok then var r := Finish(s, true); Res(Wait(r.s, AwPrepared), r.out)
      else if Over(s) then Res(Wait(s.(stream := false), AwPrepared), [])
      else Res(Wait(s.(stream := true), AwServers), [])
    case AwServers =>
      if Over(s) then Res(Wait(s, AwPrepared), [])
      else if !e.ok then Res(s, [])
      else Res(Wait(After(s.(pc := true), TStats, T.stats, StatsJob), AwPrepared), [])
    case AwPrepared =>
      if Over(s) then Res(s, [])
      else if s.role == Callee then Res(After(s, TConnect, T.connect, ConnectJob), [Accept])
      else Res(SendOffer(s, false, e), [])
  }

  predicate Offering(c: Cont) {
    c.AwRollback? || c.AwPeer? || c.AwOffer? || c.AwSetOffer? || c.AwOffered? || c.AwRestartServers?
  }

  /** The caller's offer, from its first await to its last. */
  function ContinueOffer(s: Sess, c: Cont, e: Env, T: Timing): Res
    requires Offering(c)
  {
    match c
    case AwRollback(restart) => Res(if e.ok then OfferBegins(s, restart) else s, [])
    case AwPeer(restart) => Res(if Over(s) || !s.pc then Offered(s, restart) else Wait(s, AwOffer(restart)), [])
    case AwOffer(restart) => Res(if e.ok then Wait(s, AwSetOffer(restart)) else s, [])
    case AwSetOffer(restart) =>
      if !e.ok then Res(s, [])
      else Res(Offered(After(s, TOffer, T.signalRetry, OfferJob(s.epoch)), restart), if s.pc
        && e.localOffer then [Offer(s.epoch)] else [])
    case AwOffered => Res(After(s, TConnect, T.connect, ConnectJob), [])
    case AwRestartServers => Res(if !e.ok || Over(s) then s else SendOffer(s, true, e), [])
  }

  /** The callee's answer, and the caller taking it in. */
  function ContinueAnswer(s: Sess, c: Cont, e: Env): Res {
    match c
    case AwOfferServers(epoch) => Res(if !e.ok || Over(s) then s else Wait(s.(epoch := epoch), AwRemote(epoch)), [])
    case AwRemote(epoch) => Res(if e.ok then Wait(s, AwFlush(epoch)) else s, [])
    case AwFlush(epoch) => Res(if s.pc then Wait(s, AwCreateAnswer(epoch)) else s, [])
    case AwCreateAnswer(epoch) => Res(if e.ok then Wait(s, AwSetAnswer(epoch)) else s, [])
    case AwSetAnswer(epoch) =>
      if !e.ok then Res(s, [])
      else Res(Clear(s.(answered := epoch), TRestart), if s.pc then [Answer(epoch)] else [])
    case AwAnswerRemote => Res(if e.ok then Wait(s, AwAnswerFlush) else s, [])
    case _ => Res(s, [])
  }

  function Continue(s: Sess, c: Cont, e: Env, T: Timing): Res {
    if c in {AwMedia, AwServers, AwPrepared} then ContinuePrepare(s, c, e, T)
    else if Offering(c) then ContinueOffer(s, c, e, T)
    else ContinueAnswer(s, c, e)
  }

  // ---------- one step ----------

  /** Time does not run past an armed timer. */
  predicate MayPass(s: Sess, dt: nat) {
    forall n :: n in s.timers && s.timers[n].armed ==> s.now + dt <= s.timers[n].deadline
  }

  predicate Enabled(s: Sess, ev: Event) {
    match ev
    case Dial => s.st == Idle && s.role == Caller
    case Fire(name) => name in s.timers && s.timers[name].armed && s.timers[name].deadline <= s.now
    case PcConnected => s.pc
    case PcFailed => s.pc
    case PcDisconnected => s.pc
    case Candidate => s.pc
    case RunTask => s.current == None && s.queue != []
    case Resume => s.current != None
    case Sampled => s.watchers > 0
    case Tick(dt) => MayPass(s, dt)
    case _ => true
  }

  function OnEvent(s: Sess, ev: Event, e: Env, T: Timing): Res
    requires T.backoff != [] && Enabled(s, ev)
  {
    match ev
    case Dial =>
      Res(After(After(s.(st := Calling), TInvite, T.signalRetry, InviteJob), TRing, T.ring, RingJob), [Invite])
    case UserAccept =>
      if s.st != RingingIn then Res(s, []) else Res(Enqueue(Clear(s, TRing).(st := Connecting), PrepareTask), [])
    case UserDecline => if s.st != RingingIn then Res(s, []) else Res(Finish(s, false).s, [Decline])
    case Hangup => Finish(s, true)
    case NetworkChanged =>
      if s.st == Connected || s.st == Reconnecting then OnLinkLost(s.(lastOfferAt := 0), T) else Res(s, [])
    case Recv(m) => OnMessage(s, m, T)
    case Fire(name) => OnFire(s, name, e, T)
    case PcConnected =>
      var s1 := Clear(Clear(s, TConnect), TGrace);
      Res(if s.st == Connecting then MarkConnected(s1) else s1, [])
    case PcFailed => OnLinkLost(s, T)
    case PcDisconnected => Res(After(s, TGrace, T.grace, GraceJob), [])
    case Candidate => Res(s, [Ice(s.epoch)])
    case RunTask => Begin(s.(queue := s.queue[1..]), s.queue[0], e, T)
    case Resume => Continue(s.(current := None), s.current.value, e, T)
    case Sampled => AfterSample(s.(watchers := s.watchers - 1), e, T)
    case Tick(dt) => Res(s.(now := s.now + dt), [])
  }

  // ---------- what every step keeps ----------

  predicate Active(st: St) { st == Connecting || st == Connected || st == Reconnecting }

  /** The microphone and the connection exist only while a call is up, and then the connection does. */
  predicate MediaOk(s: Sess) {
    && (s.pc ==> s.stream)
    && (s.stream ==> Active(s.st))
    && (s.st == Connected || s.st == Reconnecting ==> s.pc)
  }

  predicate Fits(n: Name, j: Job) {
    match j
    case InviteJob => n == TInvite
    case RingJob => n == TRing
    case ConnectJob => n == TConnect
    case GraceJob => n == TGrace
    case WindowJob => n == TWindow
    case RestartJob => n == TRestart
    case RescheduleJob => n == TRestart
    case AskJob => n == TRestart
    case OfferJob(_) => n == TOffer
    case StatsJob => n == TStats
  }

  predicate TimersOk(s: Sess) {
    && (forall n :: n in s.timers ==> Fits(n, s.timers[n].job))
    && (Over(s) ==> forall n :: n in s.timers ==> n == TOffer || n == TConnect)
  }

  /** Reconnecting always has its one deadline ahead. */
  predicate WindowOk(s: Sess, T: Timing) {
    s.st == Reconnecting ==>
      && TWindow in s.timers && s.timers[TWindow] == Timer(s.startedAt + T.window, true, WindowJob)
      && s.startedAt <= s.now <= s.startedAt + T.window
  }

  predicate Preparing(s: Sess) {
    PrepareTask in s.queue || (s.current.Some? && (s.current.value == AwMedia || s.current.value == AwServers))
  }

  predicate PrepareOk(s: Sess) {
    && (Preparing(s) ==> Active(s.st) || Over(s))
    && (s.current == Some(AwServers) && !Over(s) ==> s.stream)
  }

  predicate SessionOk(s: Sess, T: Timing) {
    T.backoff != [] && MediaOk(s) && TimersOk(s) && WindowOk(s, T) && PrepareOk(s)
  }

  lemma LostKeeps(s: Sess, T: Timing)
    requires SessionOk(s, T)
    ensures SessionOk(OnLinkLost(s, T).s, T)
    ensures Over(s) ==> OnLinkLost(s, T) == Res(s, [])
  {
    hide MediaOk, TimersOk, WindowOk, PrepareOk, After, EnterReconnecting, Backoff;
    if !Over(s) && s.pc {
      EnterKeeps(s, T);
      var s1 := EnterReconnecting(s, T);
      RestartKeeps(s1, T, T.signalRetry, AskJob);
      RestartKeeps(s1, T, Backoff(s1, T), RestartJob);
    }
  }

  /** Reconnecting begins with its deadline. */
  lemma EnterKeeps(s: Sess, T: Timing)
    requires SessionOk(s, T) && !Over(s) && s.pc
    ensures SessionOk(EnterReconnecting(s, T), T) && !Over(EnterReconnecting(s, T))
  {
    if s.st != Reconnecting {
      hide PrepareOk, TimersOk;
      EnterTimers(s, T);
      EnterPrepares(s, T);
    }
  }

  lemma EnterTimers(s: Sess, T: Timing)
    requires TimersOk(s) && !Over(s)
    ensures TimersOk(EnterReconnecting(s, T))
  {
  }

  lemma EnterPrepares(s: Sess, T: Timing)
    requires PrepareOk(s) && !Over(s)
    ensures PrepareOk(EnterReconnecting(s, T))
  {
  }

  lemma FinishKeeps(s: Sess, notify: bool, T: Timing)
    requires T.backoff != []
    requires Over(s) ==> SessionOk(s, T)
    ensures SessionOk(Finish(s, notify).s, T)
  {
  }

  /** A timer that only moves its deadline, or is spent, disturbs nothing but the window. */
  lemma TouchKeeps(s: Sess, name: Name, t: Timer, T: Timing)
    requires SessionOk(s, T) && name in s.timers && name != TWindow && t.job == s.timers[name].job
    ensures SessionOk(s.(timers := s.timers[name := t]), T)
  {
  }

  lemma RestartKeeps(s: Sess, T: Timing, ms: nat, j: Job)
    requires SessionOk(s, T) && !Over(s) && (j == RestartJob || j == RescheduleJob || j == AskJob)
    ensures SessionOk(After(s, TRestart, ms, j), T)
    ensures SessionOk(Clear(s, TRestart), T)
  {
  }

  lemma EnqueueKeeps(s: Sess, t: Task, T: Timing)
    requires SessionOk(s, T) && (t == PrepareTask ==> Active(s.st))
    ensures SessionOk(Enqueue(s, t), T)
  {
  }

  lemma FireRestartKeeps(s: Sess, T: Timing, e: Env)
    requires SessionOk(s, T) && TRestart in s.timers && !Over(s)
    requires s.timers[TRestart].job in {RestartJob, RescheduleJob}
    ensures SessionOk(OnFire(s, TRestart, e, T).s, T)
  {
    hide MediaOk, TimersOk, WindowOk, PrepareOk;
    var s1 := Clear(s, TRestart);
    RestartKeeps(s, T, 0, RestartJob);
    if s.timers[TRestart].job == RestartJob {
      ResetAttempt(s1, T, s.attempt + 1);
      EnqueueKeeps(s1.(attempt := s.attempt + 1), RestartTask, T);
      var s2 := Enqueue(s1.(attempt := s.attempt + 1), RestartTask);
      RestartKeeps(s2, T, Max(2 * T.signalRetry, Backoff(s2, T)), RescheduleJob);
    } else {
      RestartKeeps(s1, T, Backoff(s1, T), RestartJob);
    }
  }

  lemma FireStatsKeeps(s: Sess, T: Timing, e: Env)
    requires SessionOk(s, T) && TStats in s.timers && s.timers[TStats].job == StatsJob
    ensures SessionOk(OnFire(s, TStats, e, T).s, T)
  {
    hide MediaOk, TimersOk, WindowOk, PrepareOk;
    TouchKeeps(s, TStats, s.timers[TStats].(deadline := s.now + T.stats), T);
    MoreWatchers(Rearmed(s, TStats, T.stats), T, s.watchers + if s.pc && !Over(s) then 1 else 0);
  }

  lemma FireKeeps(s: Sess, name: Name, e: Env, T: Timing)
    requires SessionOk(s, T) && Enabled(s, Fire(name))
    ensures SessionOk(OnFire(s, name, e, T).s, T)
  {
    hide MediaOk, TimersOk, WindowOk, PrepareOk, OnLinkLost, Finish, Backoff;
    TimerFits(s, name, T);
    var t := s.timers[name];
    if t.job in {RestartJob, RescheduleJob} {
      FireRestartKeeps(s, T, e);
    } else if t.job == StatsJob {
      FireStatsKeeps(s, T, e);
    } else if t.job == RingJob || t.job == WindowJob {
      FinishKeeps(Spent(s, name), t.job == WindowJob || s.role == Caller, T);
    } else if t.job == ConnectJob || t.job == GraceJob {
      TouchKeeps(s, name, t.(armed := false), T);
      LostKeeps(Spent(s, name), T);
    } else {
      TouchKeeps(s, name, t.(deadline := s.now + T.signalRetry), T);
    }
  }

  lemma TimerFits(s: Sess, name: Name, T: Timing)
    requires SessionOk(s, T) && name in s.timers
    ensures Fits(name, s.timers[name].job) && (Over(s) ==> name == TOffer || name == TConnect)
  {
  }

  lemma ResetAttempt(s: Sess, T: Timing, n: nat)
    requires SessionOk(s, T)
    ensures SessionOk(s.(attempt := n), T)
  {
  }

  lemma MoreWatchers(s: Sess, T: Timing, n: nat)
    requires SessionOk(s, T)
    ensures SessionOk(s.(watchers := n), T)
  {
  }

  lemma MessageKeeps(s: Sess, m: Msg, T: Timing)
    requires SessionOk(s, T)
    ensures SessionOk(OnMessage(s, m, T).s, T)
  {
    hide OnLinkLost;
    if m.Restart? {
      LostKeeps(s, T);
    } else if m.Offer? {
      EnqueueKeeps(s, OfferTask(m.epoch), T);
    } else if m.Answer? {
      EnqueueKeeps(s, AnswerTask(m.epoch), T);
    } else if m in {Decline, Busy, Bye} {
      FinishKeeps(s, false, T);
    }
  }

  lemma SampleKeeps(s: Sess, e: Env, T: Timing)
    requires SessionOk(s, T)
    ensures SessionOk(AfterSample(s, e, T).s, T)
  {
    LostKeeps(s.(lastPackets := e.packets), T);
    hide OnLinkLost;
  }

  /** A step that leaves state, media, timers and clock alone, and does not start preparing, keeps everything. */
  lemma Sideways(s: Sess, s': Sess, T: Timing)
    requires SessionOk(s, T) && s'.st == s.st && s'.pc == s.pc && s'.stream == s.stream && s'.timers == s.timers
    requires s'.startedAt == s.startedAt && s'.now == s.now && (PrepareTask in s'.queue ==> PrepareTask in s.queue)
    requires s'.current.Some? ==> s'.current.value !in {AwMedia, AwServers}
    ensures SessionOk(s', T)
  {
  }

  lemma TimerKeeps(s: Sess, name: Name, ms: nat, j: Job, T: Timing)
    requires SessionOk(s, T) && Fits(name, j) && name != TWindow && (Over(s) ==> name == TOffer || name == TConnect)
    ensures SessionOk(After(s, name, ms, j), T) && SessionOk(Clear(s, name), T)
  {
  }

  lemma BeginKeeps(s: Sess, e: Env, T: Timing)
    requires SessionOk(s, T) && s.current == None && s.queue != []
    ensures SessionOk(Begin(s.(queue := s.queue[1..]), s.queue[0], e, T).s, T)
  {
    var s0, t := s.(queue := s.queue[1..]), s.queue[0];
    Sideways(s, s0, T);
    if t.PrepareTask? {
      assert Preparing(s);
    } else {
      hide MediaOk, TimersOk, WindowOk, PrepareOk;
      if t.AnswerTask? {
        TimerKeeps(s0, TOffer, 0, OfferJob(0), T);
        var s1 := Begin(s0, t, e, T).s;
        if s1.current.Some? { Sideways(Clear(s0, TOffer), s1, T); }
      } else {
        Sideways(s0, Begin(s0, t, e, T).s, T);
      }
    }
  }

  lemma PrepareKeeps(s: Sess, c: Cont, e: Env, T: Timing)
    requires SessionOk(s, T) && s.current == None && c in {AwMedia, AwServers, AwPrepared}
    requires c != AwPrepared ==> Active(s.st) || Over(s)
    requires c == AwServers && !Over(s) ==> s.stream
    ensures SessionOk(ContinuePrepare(s, c, e, T).s, T)
  {
    if c == AwPrepared {
      hide MediaOk, TimersOk, WindowOk, PrepareOk;
      if s.role == Callee {
        if !Over(s) { TimerKeeps(s, TConnect, T.connect, ConnectJob, T); }
      } else {
        Sideways(s, ContinuePrepare(s, c, e, T).s, T);
      }
    }
  }

  lemma OfferKeeps(s: Sess, c: Cont, e: Env, T: Timing)
    requires SessionOk(s, T) && s.current == None && Offering(c)
    ensures SessionOk(ContinueOffer(s, c, e, T).s, T)
  {
    hide MediaOk, TimersOk, WindowOk, PrepareOk;
    if c.AwSetOffer? {
      if e.ok {
        TimerKeeps(s, TOffer, T.signalRetry, OfferJob(s.epoch), T);
        Sideways(After(s, TOffer, T.signalRetry, OfferJob(s.epoch)), ContinueOffer(s, c, e, T).s, T);
      }
    } else if c.AwOffered? {
      TimerKeeps(s, TConnect, T.connect, ConnectJob, T);
    } else {
      Sideways(s, ContinueOffer(s, c, e, T).s, T);
    }
  }

  lemma AnswerKeeps(s: Sess, c: Cont, e: Env, T: Timing)
    requires SessionOk(s, T) && s.current == None
    ensures SessionOk(ContinueAnswer(s, c, e).s, T)
  {
    if c.AwSetAnswer? {
      if e.ok { ClearKeeps(s, c.epoch, T); }
    } else {
      hide MediaOk, TimersOk, WindowOk, PrepareOk;
      Sideways(s, ContinueAnswer(s, c, e).s, T);
    }
  }

  lemma ClearKeeps(s: Sess, epoch: nat, T: Timing)
    requires SessionOk(s, T)
    ensures SessionOk(Clear(s.(answered := epoch), TRestart), T)
  {
  }

  lemma ContinueKeeps(s: Sess, e: Env, T: Timing)
    requires SessionOk(s, T) && s.current != None
    ensures SessionOk(Continue(s.(current := None), s.current.value, e, T).s, T)
  {
    var s0, c := s.(current := None), s.current.value;
    Sideways(s, s0, T);
    assert c in {AwMedia, AwServers} ==> Preparing(s);
    assert c == AwServers && !Over(s) ==> s.stream;
    hide MediaOk, TimersOk, WindowOk, ContinuePrepare, ContinueOffer, ContinueAnswer;
    if c in {AwMedia, AwServers, AwPrepared} {
      PrepareKeeps(s0, c, e, T);
    } else if Offering(c) {
      OfferKeeps(s0, c, e, T);
    } else {
      AnswerKeeps(s0, c, e, T);
    }
  }

  lemma UserKeeps(s: Sess, ev: Event, e: Env, T: Timing)
    requires SessionOk(s, T) && Enabled(s, ev) && ev in {Dial, UserAccept, UserDecline, Hangup, NetworkChanged}
    ensures SessionOk(OnEvent(s, ev, e, T).s, T)
  {
    hide OnLinkLost, Finish;
    match ev {
      case NetworkChanged =>
        hide MediaOk, TimersOk, WindowOk, PrepareOk;
        Sideways2(s, s.(lastOfferAt := 0), T);
        LostKeeps(s.(lastOfferAt := 0), T);
      case Dial => DialKeeps(s, e, T);
      case UserAccept => DialKeeps(s, e, T);
      case _ =>
        hide MediaOk, TimersOk, WindowOk, PrepareOk;
        FinishKeeps(s, ev == Hangup, T);
    }
  }

  /** A call is dialled or taken. */
  lemma DialKeeps(s: Sess, e: Env, T: Timing)
    requires SessionOk(s, T)
    ensures Enabled(s, Dial) ==> SessionOk(OnEvent(s, Dial, e, T).s, T)
    ensures Enabled(s, UserAccept) ==> SessionOk(OnEvent(s, UserAccept, e, T).s, T)
  {
  }

  lemma Sideways2(s: Sess, s': Sess, T: Timing)
    requires SessionOk(s, T) && s' == s.(lastOfferAt := s'.lastOfferAt, watchers := s'.watchers)
    ensures SessionOk(s', T)
  {
  }

  lemma LinkKeeps(s: Sess, ev: Event, e: Env, T: Timing)
    requires SessionOk(s, T) && Enabled(s, ev) && (ev in {PcConnected, PcFailed, PcDisconnected, Candidate} || ev.Tick?)
    ensures SessionOk(OnEvent(s, ev, e, T).s, T)
  {
    hide OnLinkLost;
    if ev == PcFailed {
      LostKeeps(s, T);
    } else if ev == PcConnected {
      ConnectedKeeps(s, T);
      hide MediaOk, TimersOk, WindowOk, PrepareOk, Clear, MarkConnected;
    } else if ev == PcDisconnected {
      TimerKeeps(s, TGrace, T.grace, GraceJob, T);
      hide MediaOk, TimersOk, WindowOk, PrepareOk, After;
    } else if ev.Tick? {
      TickKeeps(s, ev.dt, T);
      hide MediaOk, TimersOk, WindowOk, PrepareOk;
    }
  }

  lemma TickKeeps(s: Sess, dt: nat, T: Timing)
    requires SessionOk(s, T) && Enabled(s, Tick(dt))
    ensures SessionOk(s.(now := s.now + dt), T)
  {
  }

  lemma ConnectedKeeps(s: Sess, T: Timing)
    requires SessionOk(s, T) && s.pc
    ensures var s1 := Clear(Clear(s, TConnect), TGrace);
      SessionOk(s1, T) && (s.st == Connecting ==> SessionOk(MarkConnected(s1), T))
  {
  }

  /** Every step of a session keeps these, whatever messages arrive and whatever the world answers. */
  lemma StepKeeps(s: Sess, ev: Event, e: Env, T: Timing)
    requires SessionOk(s, T) && Enabled(s, ev)
    ensures SessionOk(OnEvent(s, ev, e, T).s, T)
  {
    hide MediaOk, TimersOk, WindowOk, PrepareOk, OnLinkLost, OnMessage, OnFire, Begin, Continue, AfterSample;
    match ev
    case Recv(m) => MessageKeeps(s, m, T);
    case Fire(name) => FireKeeps(s, name, e, T);
    case RunTask => BeginKeeps(s, e, T);
    case Resume => ContinueKeeps(s, e, T);
    case Sampled =>
      Sideways2(s, s.(watchers := s.watchers - 1), T);
      SampleKeeps(s.(watchers := s.watchers - 1), e, T);
    case PcConnected => LinkKeeps(s, ev, e, T);
    case PcFailed => LinkKeeps(s, ev, e, T);
    case PcDisconnected => LinkKeeps(s, ev, e, T);
    case Candidate => LinkKeeps(s, ev, e, T);
    case Tick(dt) => LinkKeeps(s, ev, e, T);
    case _ => UserKeeps(s, ev, e, T);
  }

  // ---------- the end ----------

  lemma EndedContinue(s: Sess, c: Cont, e: Env, T: Timing)
    requires SessionOk(s, T) && Over(s)
    ensures var r := Continue(s, c, e, T); Over(r.s) && r.out == [] && !r.s.pc && !r.s.stream
  {
  }

  /** Ended is final: nothing is sent any more, and microphone and connection stay released. */
  lemma EndedStays(s: Sess, ev: Event, e: Env, T: Timing)
    requires SessionOk(s, T) && Over(s) && Enabled(s, ev)
    ensures var r := OnEvent(s, ev, e, T); Over(r.s) && r.out == [] && !r.s.pc && !r.s.stream
  {
    match ev {
      case Resume => EndedContinue(s.(current := None), s.current.value, e, T);
      case Fire(name) => EndedFire(s, name, e, T);
      case _ =>
    }
    hide Continue, OnFire;
  }

  lemma EndedFire(s: Sess, name: Name, e: Env, T: Timing)
    requires SessionOk(s, T) && Over(s) && Enabled(s, Fire(name))
    ensures var r := OnFire(s, name, e, T); Over(r.s) && r.out == [] && !r.s.pc && !r.s.stream
  {
    assert Fits(name, s.timers[name].job);
  }

  lemma EndedReleased(s: Sess, T: Timing)
    requires SessionOk(s, T)
    ensures Over(s) ==> !s.pc && !s.stream
  {
  }

  // ---------- runs ----------

  datatype Step = Step(ev: Event, e: Env)

  /** A run: every step enabled where it is taken. */
  ghost predicate Runs(states: seq<Sess>, steps: seq<Step>, T: Timing)
    requires T.backoff != []
  {
    && |states| == |steps| + 1
    && forall i :: 0 <= i < |steps| ==>
         && Enabled(states[i], steps[i].ev)
         && states[i + 1] == OnEvent(states[i], steps[i].ev, steps[i].e, T).s
  }

  lemma FreshOk(role: Role, now: nat, T: Timing)
    requires T.backoff != []
    ensures SessionOk(Fresh(role, now), T)
  {
  }

  lemma {:induction false} RunKeeps(states: seq<Sess>, steps: seq<Step>, T: Timing, i: nat)
    requires T.backoff != [] && Runs(states, steps, T) && SessionOk(states[0], T) && i < |states|
    ensures SessionOk(states[i], T)
  {
    hide SessionOk, OnEvent, Enabled;
    if i > 0 {
      RunKeeps(states, steps, T, i - 1);
      StepKeeps(states[i - 1], steps[i - 1].ev, steps[i - 1].e, T);
    }
  }

  /** On every run the microphone and the connection are open only in the states of a call that is up. */
  lemma MediaOnlyInCalls(states: seq<Sess>, steps: seq<Step>, role: Role, T: Timing, i: nat)
    requires T.backoff != [] && Runs(states, steps, T) && states[0] == Fresh(role, states[0].now) && i < |states|
    ensures states[i].stream || states[i].pc ==> states[i].st in {Connecting, Connected, Reconnecting}
  {
    FreshOk(role, states[0].now, T);
    RunKeeps(states, steps, T, i);
  }

  /** Once ended, a run sends nothing and opens nothing. */
  lemma {:induction false} EndedForever(states: seq<Sess>, steps: seq<Step>, T: Timing, i: nat, j: nat)
    requires T.backoff != [] && Runs(states, steps, T) && SessionOk(states[0], T) && i <= j < |states|
    requires Over(states[i])
    ensures Over(states[j]) && !states[j].pc && !states[j].stream
    ensures j < |steps| ==> OnEvent(states[j], steps[j].ev, steps[j].e, T).out == []
    decreases j
  {
    hide SessionOk, OnEvent, Enabled;
    RunKeeps(states, steps, T, j);
    EndedReleased(states[j], T);
    if i < j {
      EndedForever(states, steps, T, i, j - 1);
      RunKeeps(states, steps, T, j - 1);
      EndedStays(states[j - 1], steps[j - 1].ev, steps[j - 1].e, T);
    }
    if j < |steps| { EndedStays(states[j], steps[j].ev, steps[j].e, T); }
  }

  /** Entering sets the start; staying keeps it. */
  predicate Started(s: Sess, s': Sess) {
    s.now <= s'.now && (s'.st == Reconnecting ==> s'.startedAt == if s.st == Reconnecting then s.startedAt else s.now)
  }

  lemma LostStart(s: Sess, T: Timing)
    requires T.backoff != []
    ensures Started(s, OnLinkLost(s, T).s)
  {
  }

  lemma MessageStart(s: Sess, m: Msg, T: Timing)
    requires T.backoff != []
    ensures Started(s, OnMessage(s, m, T).s)
  {
    LostStart(s, T);
    hide OnLinkLost;
  }

  lemma SampleStart(s: Sess, e: Env, T: Timing)
    requires T.backoff != []
    ensures Started(s, AfterSample(s, e, T).s)
  {
    LostStart(s.(lastPackets := e.packets), T);
    hide OnLinkLost;
  }

  lemma StartKept(s: Sess, ev: Event, e: Env, T: Timing)
    requires T.backoff != [] && Enabled(s, ev)
    ensures Started(s, OnEvent(s, ev, e, T).s)
  {
    hide Continue, OnFire, OnLinkLost, OnMessage, AfterSample;
    match ev {
      case Resume => ContinueStart(s.(current := None), s.current.value, e, T);
      case Fire(name) => FireStart(s, name, e, T);
      case Recv(m) => MessageStart(s, m, T);
      case Sampled => SampleStart(s.(watchers := s.watchers - 1), e, T);
      case NetworkChanged => LostStart(s.(lastOfferAt := 0), T);
      case PcFailed => LostStart(s, T);
      case _ =>
    }
  }

  lemma ContinueStart(s: Sess, c: Cont, e: Env, T: Timing)
    ensures Started(s, Continue(s, c, e, T).s)
  {
    if Offering(c) {
      OfferStart(s, c, e, T);
      hide ContinueOffer;
    }
  }

  lemma OfferStart(s: Sess, c: Cont, e: Env, T: Timing)
    requires Offering(c)
    ensures Started(s, ContinueOffer(s, c, e, T).s)
  {
  }

  lemma FireStart(s: Sess, name: Name, e: Env, T: Timing)
    requires T.backoff != [] && name in s.timers
    ensures Started(s, OnFire(s, name, e, T).s)
  {
    hide OnLinkLost, Backoff;
    var j := s.timers[name].job;
    if j == ConnectJob || j == GraceJob {
      LostStart(Spent(s, name), T);
    } else {
      PlainFire(s, name, e, T);
      hide OnFire;
    }
  }

  lemma PlainFire(s: Sess, name: Name, e: Env, T: Timing)
    requires T.backoff != [] && name in s.timers && s.timers[name].job != ConnectJob && s.timers[name].job != GraceJob
    ensures var s' := OnFire(s, name, e, T).s;
      s'.now == s.now && s'.startedAt == s.startedAt && (s'.st == s.st || s'.st == Ended)
  {
    hide OnLinkLost, Backoff;
  }

  lemma WindowAhead(s: Sess, T: Timing)
    requires SessionOk(s, T) && s.st == Reconnecting
    ensures s.startedAt <= s.now <= s.startedAt + T.window
  {
  }

  /** No stretch of reconnecting lasts longer than its window. */
  lemma {:induction false} ReconnectingIsShort(states: seq<Sess>, steps: seq<Step>, T: Timing, i: nat, j: nat)
    requires T.backoff != [] && Runs(states, steps, T) && SessionOk(states[0], T) && i <= j < |states|
    requires forall k :: i <= k <= j ==> states[k].st == Reconnecting
    ensures states[j].startedAt == states[i].startedAt
    ensures states[i].startedAt <= states[i].now <= states[j].now <= states[i].startedAt + T.window
    ensures states[j].now - states[i].now <= T.window
    decreases j
  {
    hide SessionOk, OnEvent, Enabled;
    RunKeeps(states, steps, T, j);
    WindowAhead(states[j], T);
    if i < j {
      ReconnectingIsShort(states, steps, T, i, j - 1);
      RunKeeps(states, steps, T, j - 1);
      StartKept(states[j - 1], steps[j - 1].ev, steps[j - 1].e, T);
    }
  }
}
