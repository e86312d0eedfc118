/** The timetable of `Lease` over whole runs of the lifecycle. */
module LeaseRuns {
  import opened Options
  import opened Lease
  import opened Lifecycle
  import opened LifecycleHistory
  import opened LifecycleInvariants
  import LifecycleLoops
  import opened LifecycleTicks
  import ReconnectBudget

  // ----- the heartbeat loop between its own rearmings

  /** From `s` to `t` no heartbeat timer is put off or brought forward, and the backoff stays. */
  ghost predicate Kept(s: State, t: State) {
    && s.nextId <= t.nextId && t.hb.backoff == s.hb.backoff && s.now <= t.now
    && forall id: nat :: id < s.nextId && id in t.hb.armed ==> id in s.hb.armed && t.hb.armed[id] == s.hb.armed[id]
  }

  lemma KeptOn(s: State, m: State, t: State)
    requires Kept(s, m) && Kept(m, t)
    ensures Kept(s, t)
  {
  }

  lemma TerminalKept(o: Out, reason: Reason)
    ensures Kept(o.st, FireTerminal(o, reason).st)
  {
    hide Undisturbed, SameWork;
  }

  lemma ListenKept(o: Out, call: ListenerCall)
    ensures Kept(o.st, Listen(o, call).st)
  {
    hide Undisturbed, SameWork;
  }

  lemma ReconnectKept(o: Out, reason: Reason, successor: Option<string>, reconnects: bool)
    ensures Kept(o.st, FireTerminalOrReconnect(o, reason, successor, reconnects).st)
  {
    hide FireTerminal, Undisturbed, SameWork;
    var s := o.st.(reconnecting := true, hb := Disarm(o.st.hb), pw := Disarm(o.st.pw));
    TerminalKept(o, reason);
    TerminalKept(o.(st := s), ReconnectExhausted);
  }

  lemma RevokeKept(o: Out, reason: Reason, onRevoked: ListenerCall, reconnects: bool)
    ensures Kept(o.st, Revoke(o, reason, onRevoked, reconnects).st)
  {
    hide Listen, FireTerminalOrReconnect, Kept;
    var p := o.(fx := o.fx + [RevokedNotified(reason)]);
    ListenKept(p, onRevoked);
    ReconnectKept(Listen(p, onRevoked), reason, None, reconnects);
    KeptOn(o.st, Listen(p, onRevoked).st, Revoke(o, reason, onRevoked, reconnects).st);
  }

  lemma NotifyKept(s: State, info: Info, onPhase: ListenerCall)
    ensures Kept(s, NotifyPhase(s, info, onPhase).st)
  {
    hide Listen;
    ListenKept(Out(s.(knownPhase := Some(info.phase)), [PhaseNotified(info.phase)]), onPhase);
  }

  lemma WatcherFinishKept(o: Out, id: nat)
    ensures Kept(o.st, Finish(o, Watcher, id).st)
  {
    hide Undisturbed, SameWork;
  }

  lemma InfoKept(s: State, id: nat, info: Info, onPhase: ListenerCall, onRevoked: ListenerCall, reconnects: bool)
    ensures Kept(s, ReceiveInfo(s, id, info, onPhase, onRevoked, reconnects).st)
  {
    hide NotifyPhase, FireTerminal, Revoke, Finish, Kept, Undisturbed, SameWork;
    var s' := s.(pw := s.pw.(backoff := 0.0));
    var n := NotifyPhase(s', info, onPhase);
    var o := JudgeInfo(n, info, onRevoked, reconnects);
    Itself(s, s');
    Itself(n.st, n.st);
    NotifyKept(s', info, onPhase);
    RevokeKept(n, Superseded, onRevoked, reconnects);
    RevokeKept(n, HeartbeatTimeout, onRevoked, reconnects);
    TerminalKept(n, Destroy);
    WatcherFinishKept(o, id);
    KeptOn(s, s', n.st);
    KeptOn(s, n.st, o.st);
    KeptOn(s, o.st, Finish(o, Watcher, id).st);
  }

  lemma Itself(s: State, t: State)
    requires t.nextId == s.nextId && t.now == s.now && t.hb == s.hb
    ensures Kept(s, t)
  {
  }

  lemma HistoryKept(s: State, k: LoopKind, id: nat, history: Option<seq<string>>, reconnects: bool)
    ensures Kept(s, ReceiveHistory(s, k, id, history, reconnects).st)
  {
    hide FireTerminal, FireTerminalOrReconnect, FindSuccessor, SetTick, Kept, Undisturbed, SameWork;
    var o := Out(SetTick(s, k, id, Verdict(true)), []);
    SetTickKept(s, k, id, Verdict(true));
    ReconnectKept(o, ContinuedAsNew, FindSuccessor(history), reconnects);
    TerminalKept(o, Destroy);
    KeptOn(s, o.st, FireTerminal(o, Destroy).st);
    KeptOn(s, o.st, FireTerminalOrReconnect(o, ContinuedAsNew, FindSuccessor(history), reconnects).st);
  }

  lemma SetTickKept(s: State, k: LoopKind, id: nat, pc: TickPc)
    ensures Kept(s, SetTick(s, k, id, pc))
  {
  }

  lemma FinishKept(o: Out, k: LoopKind, id: nat)
    ensures Kept(o.st, Finish(o, k, id).st)
  {
    hide Undisturbed, SameWork;
  }

  lemma TimerKept(s: State, k: LoopKind, id: nat)
    ensures Kept(s, FireTimer(s, k, id).st)
  {
    hide Finish, SetTick, Kept;
    var t := s.WithLoop(k, s.LoopOf(k).(armed := s.LoopOf(k).armed - {id}));
    FiredKept(s, k, id);
    FinishKept(Out(t, []), k, id);
    SetTickKept(t, k, id, Rpc);
    KeptOn(s, t, Finish(Out(t, []), k, id).st);
    KeptOn(s, t, SetTick(t, k, id, Rpc));
  }

  lemma FiredKept(s: State, k: LoopKind, id: nat)
    ensures Kept(s, s.WithLoop(k, s.LoopOf(k).(armed := s.LoopOf(k).armed - {id})))
  {
  }

  lemma WatcherReturnKept(s: State, id: nat, handled: bool)
    ensures Kept(s, ReturnFromTick(s, Watcher, id, handled).st)
  {
    hide Finish, NextTickBackoff, Kept;
    var t := s.(pw := s.pw.(backoff := NextTickBackoff(s.pw.backoff, s.config.heartbeatMs)));
    Itself(s, t);
    FinishKept(Out(s, []), Watcher, id);
    FinishKept(Out(t, []), Watcher, id);
    KeptOn(s, t, Finish(Out(t, []), Watcher, id).st);
  }

  lemma GiveKept(s: State, r: nat, reason: Reason)
    ensures Kept(s, Give(Out(s, []), r, reason).st)
  {
    hide FireTerminal, Undisturbed, SameWork;
    TerminalKept(Out(s, []), reason);
  }

  lemma HeadKept(s: State, r: nat, v: LoopVars)
    ensures Kept(s, LoopHead(Out(s, []), r, v).st) && Kept(s, Retry(Out(s, []), r, v).st)
  {
    hide Give, NextReconnectBackoff, Undisturbed, SameWork;
    GiveKept(s, r, ReconnectExhausted);
  }

  lemma EndKept(s: State, r: nat)
    ensures Kept(s, EndRoutine(Out(s, []), r).st) && Kept(s, Resume(Out(s, []), r).st)
  {
    hide Undisturbed, SameWork;
  }

  lemma HookKept(s: State, r: nat)
    requires Enabled(s, HookReturns(r)) && !s.routines[r].RebindStarting?
    ensures Kept(s, ReturnFromHook(s, r, s.routines[r]).st)
  {
    hide LoopHead, Resume, Kept;
    EndKept(s, r);
    if s.routines[r].LoopStarting? {
      HeadKept(s, r, LoopVars(s.routines[r].oldAttachmentId, s.now + s.config.budgetMs, s.config.baseMs, 0));
    }
  }

  lemma AttemptKept(s: State, e: Event)
    requires Enabled(s, e) && (e.PrecheckInfo? || e.PrecheckFails? || e.DescribeReply? || e.ReclaimFails?)
    ensures Kept(s, Step(s, e).st)
  {
    hide Give, Retry, Kept, SetRoutine;
    GiveKept(s, e.routine, Destroy);
    GiveKept(s, e.routine, Superseded);
    HeadKept(s, e.routine, s.routines[e.routine].vars);
    MoveKept(s, e.routine, LoopClaiming(s.routines[e.routine].vars));
    MoveKept(s, e.routine, LoopDescribe(s.routines[e.routine].vars));
  }

  lemma MoveKept(s: State, r: nat, pc: Routine)
    ensures Kept(s, SetRoutine(s, r, pc))
  {
  }

  lemma PlainKept(s: State, e: Event)
    requires Enabled(s, e)
    requires e.CallStart? || e.CallStop? || e.SleepElapses? || e.Wakes? || e.Crashes? || e.SubclassSleeps?
      || e.ClockAdvances?
    ensures Kept(s, Step(s, e).st)
  {
    hide FireTimer, AcceptHeartbeat, ReceiveInfo, FailTick, ReceiveHistory, ReturnFromTick, ReturnFromHook,
         ReceivePrecheck, FailPrecheck, ReceiveDescribe, FailReclaim, Undisturbed, SameWork;
  }

  /** The heartbeat is armed anew only by a grant, an accepted heartbeat, or the end of a failed one. */
  predicate Rearming(s: State, e: Event) {
    e.StartReply? || e.HeartbeatAccepted? || (e.TickReturns? && e.kind == Heartbeat) || OpensEpoch(s, e)
  }

  lemma StepKept(s: State, e: Event)
    requires Inv(s) && Enabled(s, e) && !Rearming(s, e)
    ensures Kept(s, Step(s, e).st)
  {
    hide FireTimer, AcceptHeartbeat, ReceiveInfo, FailTick, ReceiveHistory, ReturnFromTick, ReturnFromHook,
         ElapseSleep, Wake, ReceivePrecheck, FailPrecheck, ReceiveDescribe, FailReclaim, Stop, ArmBoth, FireTerminal,
         EndRoutine, SetRoutine, Repoint, Kept, Inv;
    match e
    case TimerFires(k, id) => TimerKept(s, k, id);
    case WatcherInfo(id, info, onPhase, onRevoked, reconnects) => InfoKept(s, id, info, onPhase, onRevoked, reconnects);
    case TickFails(k, id, terminal) => FailKept(s, k, id, terminal);
    case HistoryReply(k, id, history, reconnects) => HistoryKept(s, k, id, history, reconnects);
    case TickReturns(_, id) => WatcherReturnKept(s, id, s.pw.ticks[id].handled);
    case HookReturns(r) => RebindNeedsToken(s, r); HookKept(s, r);
    case PrecheckInfo(_, _) | PrecheckFails(_, _) | DescribeReply(_, _) | ReclaimFails(_, _) => AttemptKept(s, e);
    case _ => PlainKept(s, e);
  }

  lemma FailKept(s: State, k: LoopKind, id: nat, terminal: bool)
    ensures Kept(s, FailTick(s, k, id, terminal).st)
  {
    hide SetTick, Kept;
    SetTickKept(s, k, id, History);
    SetTickKept(s, k, id, Verdict(false));
  }

  lemma RebindNeedsToken(s: State, r: nat)
    requires Inv(s) && Enabled(s, HookReturns(r)) && !OpensEpoch(s, HookReturns(r))
    ensures !s.routines[r].RebindStarting?
  {
  }

  // ----- renewals and failures in a row

  /**
   * The heartbeats since a timetable began: when the lease was last renewed before that, when the
   * timetable began, how long after its due time each heartbeat since then took to fail, and the
   * timer of the next.
   */
  datatype Chain = Chain(renewedAt: real, startedAt: real, latencies: seq<real>, timer: nat)

  /**
   * What is known of the lease: when it was last renewed, the heartbeats in flight that an earlier
   * attachment sent and that renew nothing, and the chain.
   */
  datatype Watch = Watch(renewedAt: Option<real>, stale: set<nat>, chain: Option<Chain>)

  const UNWATCHED := Watch(None, {}, None)

  /** When the next heartbeat of the chain is due. */
  function Due(c: Config, ch: Chain): real {
    ch.startedAt + SentAt(c, ch.latencies, |ch.latencies|)
  }

  predicate Rearms(s: State) {
    !s.stopped && !s.reconnecting && !s.terminalFired
  }

  /** The reply says that the lease was renewed: a granted claim, or an accepted heartbeat of the present attachment. */
  predicate Renews(s: State, e: Event, stale: set<nat>) {
    Enabled(s, e) &&
    ((e.StartReply? && e.reply.Some?) || e.ReclaimGranted? || (e.HeartbeatAccepted? && e.id !in stale))
  }

  /** A recovery ends, and both loops go on without a backoff. */
  predicate Recovers(s: State, e: Event) {
    LifecycleLoops.Resumes(s, e) && !s.stopped && s.hb.backoff == 0.0
  }

  /** The heartbeat loop is armed afresh here: by a renewal, or after the pause that a recovery's hook makes. */
  predicate Begins(s: State, e: Event, w: Watch) {
    || (e.StartReply? && Renews(s, e, w.stale))
    || (e.HeartbeatAccepted? && Renews(s, e, w.stale) && Rearms(s))
    || (Recovers(s, e) && w.renewedAt.Some?)
  }

  predicate FailsNext(s: State, e: Event, w: Watch) {
    Enabled(s, e) && e.TickReturns? && e.kind == Heartbeat && w.chain.Some? && e.id == w.chain.value.timer
    && !s.hb.ticks[e.id].handled && Rearms(s)
  }

  function RenewedBy(s: State, e: Event, w: Watch): Option<real> {
    if Renews(s, e, w.stale) then Some(s.now) else w.renewedAt
  }

  function StaleAfter(s: State, e: Event, w: Watch): set<nat> {
    if Enabled(s, e) && e.ReclaimGranted? then s.hb.ticks.Keys else w.stale
  }

  function ChainAfter(c: Config, s: State, e: Event, w: Watch): Option<Chain> {
    if Begins(s, e, w) then Some(Chain(RenewedBy(s, e, w).value, s.now, [], s.nextId))
    else if FailsNext(s, e, w) then
      var ch := w.chain.value;
      Some(ch.(latencies := ch.latencies + [s.now - Due(c, ch)], timer := s.nextId))
    else if Enabled(s, e) && Rearming(s, e) then None
    else w.chain
  }

  ghost function Watched(c: Config, es: seq<Event>): Watch {
    if es == [] then UNWATCHED
    else
      var s, e, w := Run(c, es[..|es| - 1]), es[|es| - 1], Watched(c, es[..|es| - 1]);
      Watch(RenewedBy(s, e, w), StaleAfter(s, e, w), ChainAfter(c, s, e, w))
  }

  /** The adapter keeps the timetable of the chain. */
  ghost predicate Timed(c: Config, s: State, ch: Chain) {
    && s.hb.backoff == BackoffAfter(c, |ch.latencies|) && ch.timer < s.nextId
    && (ch.timer in s.hb.armed ==> s.hb.armed[ch.timer] == Due(c, ch))
    && (ch.timer in s.hb.ticks ==> Due(c, ch) <= s.now)
    && ch.renewedAt <= ch.startedAt
    && forall i | 0 <= i < |ch.latencies| :: 0.0 <= ch.latencies[i]
  }

  lemma {:induction false} LongerPrefix(c: Config, latencies: seq<real>, l: real, k: nat)
    requires k <= |latencies|
    ensures SentAt(c, latencies + [l], k) == SentAt(c, latencies, k)
  {
    if k > 0 {
      LongerPrefix(c, latencies, l, k - 1);
    }
  }

  /** What an accepted heartbeat or a failed one leaves in the loop when it arms the next. */
  lemma TickRearms(s: State, e: Event)
    requires Inv(s) && Enabled(s, e) && Rearms(s)
    requires e.HeartbeatAccepted? || (e.TickReturns? && e.kind == Heartbeat)
    ensures Step(s, e).st.nextId == s.nextId + 1 && s.nextId !in Step(s, e).st.hb.ticks
  {
    hide ReceiveInfo, ReceiveHistory, FailTick, FireTimer, NextTickBackoff, Undisturbed, SameWork;
    TicksAre(s, e, Heartbeat);
    assert s.nextId !in s.hb.ticks;
  }

  lemma GrantArms(s: State, token: Token)
    requires Inv(s) && Enabled(s, StartReply(Some(token))) && s.hb.backoff == 0.0
    ensures var t := Step(s, StartReply(Some(token))).st;
      && t.hb.backoff == 0.0 && t.nextId == s.nextId + 2 && s.nextId !in t.hb.ticks
      && s.nextId in t.hb.armed && t.hb.armed[s.nextId] == s.now + TickDelay(s.config, Heartbeat, 0.0)
  {
    hide FireTimer, AcceptHeartbeat, ReceiveInfo, FailTick, ReceiveHistory, ReturnFromTick, ReturnFromHook,
         ElapseSleep, Wake, ReceivePrecheck, FailPrecheck, ReceiveDescribe, FailReclaim, Stop, FireTerminal,
         Undisturbed, SameWork;
    assert s.nextId !in s.hb.ticks;
  }

  lemma RecoveryArms(s: State, e: Event)
    requires Inv(s) && Recovers(s, e)
    ensures var t := Step(s, e).st;
      && t.hb.backoff == 0.0 && t.nextId == s.nextId + 2 && s.nextId !in t.hb.ticks
      && s.nextId in t.hb.armed && t.hb.armed[s.nextId] == s.now + TickDelay(s.config, Heartbeat, 0.0)
  {
    hide Step, Recovers, Inv;
    RecoveryResumes(s, e);
    ResumeArms(s, e.routine);
  }

  lemma RecoveryResumes(s: State, e: Event)
    requires Inv(s) && Recovers(s, e)
    ensures e.HookReturns? && Step(s, e) == Resume(Out(s, []), e.routine)
    ensures !s.stopped && s.hb.backoff == 0.0 && s.nextId !in s.hb.ticks
  {
    hide Resume, Undisturbed, SameWork, SameSelf;
    assert forall id :: id in s.hb.ticks ==> id < s.nextId;
  }

  lemma ResumeArms(s: State, r: nat)
    requires !s.stopped && s.hb.backoff == 0.0 && s.nextId !in s.hb.ticks
    ensures var t := Resume(Out(s, []), r).st;
      && t.hb.backoff == 0.0 && t.nextId == s.nextId + 2 && s.nextId !in t.hb.ticks
      && s.nextId in t.hb.armed && t.hb.armed[s.nextId] == s.now + TickDelay(s.config, Heartbeat, 0.0)
  {
    hide Undisturbed, SameWork, SameSelf;
  }

  lemma BeginningIsTimed(c: Config, s: State, e: Event, w: Watch)
    requires Inv(s) && s.config == c && Unbacked(s) && Begins(s, e, w)
    requires w.renewedAt.Some? ==> w.renewedAt.value <= s.now
    ensures Timed(c, Step(s, e).st, Chain(RenewedBy(s, e, w).value, s.now, [], s.nextId))
  {
    hide Step, Inv;
    if e.StartReply? {
      ClaimingIsNotStarted(s, e);
      GrantArms(s, e.reply.value);
    } else if e.HeartbeatAccepted? {
      AcceptanceRearms(s, e.id);
      TickRearms(s, e);
    } else {
      RecoveryArms(s, e);
    }
  }

  lemma FailureIsTimed(c: Config, s: State, e: Event, ch: Chain)
    requires Inv(s) && s.config == c && Enabled(s, e) && Rearms(s) && Timed(c, s, ch)
    requires e == TickReturns(Heartbeat, ch.timer) && !s.hb.ticks[ch.timer].handled
    ensures Timed(c, Step(s, e).st, ch.(latencies := ch.latencies + [s.now - Due(c, ch)], timer := s.nextId))
  {
    hide Step, Inv, BackoffAfter;
    var k := |ch.latencies|;
    FailureRearms(s, ch.timer, k);
    TickRearms(s, e);
    LongerPrefix(c, ch.latencies, s.now - Due(c, ch), k);
  }

  /** Before the first claim is granted no backoff has built up. */
  ghost predicate Unbacked(s: State) {
    s.start != Started ==> s.hb.backoff == 0.0
  }

  lemma ClaimingIsNotStarted(s: State, e: Event)
    requires e.StartReply? && Enabled(s, e)
    ensures s.start != Started
  {
  }

  lemma StepUnbacked(s: State, e: Event)
    requires Inv(s) && Unbacked(s)
    ensures Unbacked(Step(s, e).st)
  {
    hide Step;
    StepSelf(s, e);
    if !Enabled(s, e) {
      DisabledStays(s, e);
    } else if s.start != Started && !Rearming(s, e) {
      StepKept(s, e);
    } else if s.start != Started {
      NothingToRearm(s, e);
    }
  }

  lemma NothingToRearm(s: State, e: Event)
    requires Inv(s) && s.start != Started && Enabled(s, e) && Rearming(s, e)
    ensures e.StartReply? && (e.reply.None? ==> Step(s, e).st.hb == s.hb)
    ensures e.reply.Some? ==> Step(s, e).st.start == Started
  {
    hide FireTimer, AcceptHeartbeat, ReceiveInfo, FailTick, ReceiveHistory, ReturnFromTick, ReturnFromHook,
         ElapseSleep, Wake, ReceivePrecheck, FailPrecheck, ReceiveDescribe, FailReclaim, Stop, FireTerminal, SameWork;
    assert forall id :: id in s.hb.ticks ==> id in s.hb.Live();
    assert s.routines.Keys == {};
  }

  /** Events that arm nothing anew leave the chain's timetable as it is. */
  lemma KeptIsTimed(c: Config, s: State, e: Event, ch: Chain)
    requires Inv(s) && Enabled(s, e) && !Rearming(s, e) && Timed(c, s, ch)
    ensures Timed(c, Step(s, e).st, ch)
  {
    hide Step, Inv, BackoffAfter, Due;
    StepKept(s, e);
    TicksAre(s, e, Heartbeat);
    if e.TimerFires? && e.kind == Heartbeat && e.id == ch.timer {
      FiredWhenDue(s, e);
    }
  }

  lemma FiredWhenDue(s: State, e: Event)
    requires e.TimerFires? && e.kind == Heartbeat && Enabled(s, e)
    ensures e.id in s.hb.armed && s.hb.armed[e.id] <= s.now
  {
  }

  /**
   * In every run: after `k` heartbeats in a row have failed since a timetable began, the next one is
   * due at its beginning plus `SentAt` of their latencies, and goes out no earlier. A started adapter
   * has a renewal to look back to.
   */
  lemma {:induction false} RunsKeepTheTimetable(c: Config, es: seq<Event>)
    ensures Run(c, es).config == c && Unbacked(Run(c, es))
    ensures var w, s := Watched(c, es), Run(c, es);
      && (s.start == Started ==> w.renewedAt.Some?)
      && (w.renewedAt.Some? ==> w.renewedAt.value <= s.now)
      && (w.chain.Some? ==> Timed(c, s, w.chain.value))
  {
    hide Step, Inv, Timed, Unbacked, Rearming, Begins, FailsNext, Renews;
    if es == [] {
      FreshIsUnbacked(c);
    } else {
      var before, e := es[..|es| - 1], es[|es| - 1];
      var s, w := Run(c, before), Watched(c, before);
      RunsKeepTheTimetable(c, before);
      RunKeepsInv(c, before);
      ReconnectBudget.StepKeepsConfig(s, e);
      ReconnectBudget.ClockGoesOn(s, e);
      StepUnbacked(s, e);
      StartIsRenewal(s, e, w.stale);
      ChainIsTimed(c, s, e, w);
    }
  }

  lemma FreshIsUnbacked(c: Config)
    ensures Unbacked(Init(c))
  {
  }

  lemma StartIsRenewal(s: State, e: Event, stale: set<nat>)
    ensures Step(s, e).st.start == Started ==> s.start == Started || Renews(s, e, stale)
  {
    hide Step;
    StepSelf(s, e);
  }

  lemma ChainIsTimed(c: Config, s: State, e: Event, w: Watch)
    requires Inv(s) && s.config == c && Unbacked(s) && (w.chain.Some? ==> Timed(c, s, w.chain.value))
    requires w.renewedAt.Some? ==> w.renewedAt.value <= s.now
    ensures ChainAfter(c, s, e, w).Some? ==> Timed(c, Step(s, e).st, ChainAfter(c, s, e, w).value)
  {
    hide Step, Inv, Timed, Unbacked, Begins, RenewedBy;
    if Begins(s, e, w) {
      BeginningIsTimed(c, s, e, w);
    } else if FailsNext(s, e, w) {
      FailureIsTimed(c, s, e, w.chain.value);
    } else if !Enabled(s, e) {
      DisabledStays(s, e);
    } else if !Rearming(s, e) && w.chain.Some? {
      KeptIsTimed(c, s, e, w.chain.value);
    }
  }

  // ----- where a chain comes from

  /** The `j`-th event is the last renewal before the timetable that begins with the `m`-th. */
  ghost predicate Origin(c: Config, es: seq<Event>, j: nat, m: nat, ch: Chain)
    requires j <= m < |es|
  {
    && Renews(Run(c, es[..j]), es[j], Watched(c, es[..j]).stale) && Run(c, es[..j]).now == ch.renewedAt
    && Begins(Run(c, es[..m]), es[m], Watched(c, es[..m])) && Run(c, es[..m]).now == ch.startedAt
    && (j == m || Recovers(Run(c, es[..m]), es[m]))
    && forall n | j < n <= m :: !Renews(Run(c, es[..n]), es[n], Watched(c, es[..n]).stale)
  }

  lemma {:induction false} LastRenewal(c: Config, es: seq<Event>) returns (j: nat)
    requires Watched(c, es).renewedAt.Some?
    ensures j < |es| && Renews(Run(c, es[..j]), es[j], Watched(c, es[..j]).stale)
    ensures Run(c, es[..j]).now == Watched(c, es).renewedAt.value
    ensures forall n | j < n < |es| :: !Renews(Run(c, es[..n]), es[n], Watched(c, es[..n]).stale)
  {
    hide Run, Renews, ChainAfter, StaleAfter;
    var last := |es| - 1;
    if Renews(Run(c, es[..last]), es[last], Watched(c, es[..last]).stale) {
      j := last;
    } else {
      j := LastRenewal(c, es[..last]);
      Prefixes(es, last);
      assert forall n | 0 <= n < last :: es[..last][n] == es[n];
    }
  }

  lemma Prefixes<T>(es: seq<T>, m: nat)
    requires m <= |es|
    ensures forall n {:trigger es[..n]} | 0 <= n <= m :: es[..m][..n] == es[..n]
  {
    forall n {:trigger es[..n]} | 0 <= n <= m ensures es[..m][..n] == es[..n] {
    }
  }

  /**
   * The pause of a chain is that between the last renewing reply and the segment that armed the loop:
   * none after a start or an accepted heartbeat, and what the recovery's hook took after a reclaim.
   */
  lemma {:induction false} ChainHasOrigin(c: Config, es: seq<Event>) returns (j: nat, m: nat)
    requires Watched(c, es).chain.Some?
    ensures j <= m < |es| && Origin(c, es, j, m, Watched(c, es).chain.value)
  {
    hide Run, Renews, Begins, Recovers, Rearming, Enabled;
    var last := |es| - 1;
    var before := es[..last];
    var s, e, w := Run(c, before), es[last], Watched(c, before);
    Prefixes(es, last);
    if Begins(s, e, w) {
      m := last;
      if Renews(s, e, w.stale) {
        j := last;
      } else {
        BeginningsRenewOrRecover(s, e, w);
        j := LastRenewal(c, before);
        assert forall n | 0 <= n < last :: before[n] == es[n];
      }
    } else {
      j, m := ChainHasOrigin(c, before);
      OriginStands(c, es, last, j, m, w.chain.value);
    }
  }

  lemma BeginningsRenewOrRecover(s: State, e: Event, w: Watch)
    requires Begins(s, e, w) && !Renews(s, e, w.stale)
    ensures Recovers(s, e) && w.renewedAt.Some?
  {
  }

  lemma OriginStands(c: Config, es: seq<Event>, last: nat, j: nat, m: nat, ch: Chain)
    requires last <= |es| && j <= m < last && Origin(c, es[..last], j, m, ch)
    ensures forall ch': Chain | ch'.renewedAt == ch.renewedAt && ch'.startedAt == ch.startedAt ::
      Origin(c, es, j, m, ch')
  {
    hide Run, Renews, Begins, Recovers;
    Prefixes(es, last);
    assert forall n | 0 <= n < last :: es[..last][n] == es[n];
  }

  /**
   * So where the arithmetic says that `k` failures are survived, a run with RPCs that keep to the
   * bound, and a pause no longer than allowed, still has time, after `k` failures in a row, for the
   * next heartbeat to arrive before the lease expires.
   */
  lemma RunsOutliveFailures(c: Config, es: seq<Event>, bound: real, longest: real)
    requires c.Valid() && 0.0 <= bound && Watched(c, es).chain.Some?
    requires forall l <- Watched(c, es).chain.value.latencies :: l <= bound
    requires Watched(c, es).chain.value.startedAt - Watched(c, es).chain.value.renewedAt <= longest
    requires AlwaysSurvives(c, |Watched(c, es).chain.value.latencies|, bound, longest)
    ensures var ch, s := Watched(c, es).chain.value, Run(c, es);
      && Due(c, ch) + bound < ch.renewedAt - bound + 3.0 * c.heartbeatMs
      && (ch.timer in s.hb.armed ==> s.hb.armed[ch.timer] == Due(c, ch))
  {
    hide Run, Watched;
    RunsKeepTheTimetable(c, es);
    var ch := Watched(c, es).chain.value;
    var k := |ch.latencies|;
    var all := ch.latencies + [bound];
    forall i | 0 <= i <= k ensures 0.0 <= all[i] <= bound {
      if i < k { assert ch.latencies[i] in ch.latencies; }
    }
    LongerPrefix(c, ch.latencies, bound, k);
    assert Survives(c, bound, ch.startedAt - ch.renewedAt, all, k);
  }
}
