/**
 * What each event makes the adapter do, said of the event and the fields alone: every effect of every segment, and how
 * a reply to the reconnect loop or to the watcher leaves the adapter. Nothing here speaks of the code's own helpers.
 */
module LifecycleReplies {
  import opened Options
  import opened Lifecycle
  import opened LifecycleInvariants
  import opened LifecycleTicks

  // ----- what an event means

  /** The reply shows that another attachment holds the lease. */
  predicate Foreign(s: State, info: Info) {
    info.holder.Some? && s.token.Some? && info.holder.value != s.token.value.attachmentId
  }

  /** A watcher reply that revokes the lease for this reason: taken over, or reaped without a new holder. */
  predicate Revokes(s: State, e: Event, x: Reason) {
    e.WatcherInfo? &&
    ((x == Superseded && Foreign(s, e.info))
     || (x == HeartbeatTimeout && e.info.phase == Detached && e.info.holder.None?))
  }

  /** A phase listener stops the adapter: the phase is news to it. */
  predicate PhaseStops(s: State, e: Event) {
    e.WatcherInfo? && e.onPhase.Stops? && s.knownPhase != Some(e.info.phase)
  }

  predicate HasSuccessor(history: Option<seq<string>>) {
    history.Some? && exists h <- history.value :: h != ""
  }

  predicate Unhindered(s: State) {
    !s.stopped && !s.reconnecting && !s.terminalFired
  }

  /** A reason that a recovery may answer, in an adapter that is free to. */
  predicate Recoverable(s: State, e: Event, x: Reason) {
    || (Revokes(s, e, x) && Unhindered(s) && !PhaseStops(s, e) && !e.onRevoked.Stops?)
    || (e.HistoryReply? && x == ContinuedAsNew && HasSuccessor(e.history) && Unhindered(s))
  }

  predicate OutOfTime(s: State, v: LoopVars) {
    s.stopped || v.deadline <= s.now
  }

  /** The event ends the adapter's work for this reason. */
  predicate Ends(s: State, e: Event, x: Reason)
    requires Enabled(s, e)
  {
    match e
    case WatcherInfo(_, info, _, _, reconnects) =>
      (Recoverable(s, e, x) && !reconnects) || (x == Destroy && info.phase == Gone && !Foreign(s, info))
    case HistoryReply(_, _, history, reconnects) =>
      (Recoverable(s, e, x) && !reconnects) || (x == Destroy && !HasSuccessor(history))
    case HookReturns(r) =>
      x == ReconnectExhausted && s.routines[r].LoopStarting? && (s.stopped || s.config.budgetMs <= 0.0)
    case PrecheckInfo(r, info) =>
      if info.phase == Gone then x == Destroy
      else if info.holder.Some? && info.holder.value != s.routines[r].vars.oldAttachmentId then x == Superseded
      else x == ReconnectExhausted && info.phase == Draining && OutOfTime(s, s.routines[r].vars)
    case PrecheckFails(r, terminal) => x == ReconnectExhausted && !terminal && OutOfTime(s, s.routines[r].vars)
    case DescribeReply(r, running) =>
      if running then x == ReconnectExhausted && OutOfTime(s, s.routines[r].vars) else x == Destroy
    case ReclaimFails(r, terminal) =>
      if terminal then x == Destroy else x == ReconnectExhausted && OutOfTime(s, s.routines[r].vars)
    case Crashes(_) => x == ReconnectExhausted
    case _ => false
  }

  /** The event makes the adapter do `x`. */
  predicate Emits(s: State, e: Event, x: Effect) {
    Enabled(s, e) &&
    match x
    case InitialClaimSent => e.CallStart?
    case HeartbeatSent(a, run) =>
      e.TimerFires? && e.kind == Heartbeat && Unhindered(s) && s.token.Some?
      && a == s.token.value.attachmentId && run == s.token.value.runId
    case QuerySent(run) =>
      e.TimerFires? && e.kind == Watcher && Unhindered(s) && s.token.Some? && run == s.token.value.runId
    case HistorySent(run) => e.TickFails? && e.terminal && s.token.Some? && run == s.token.value.runId
    case PrecheckSent => e.Wakes? && s.routines[e.routine].LoopWoken? && !s.stopped
    case DescribeSent => e.PrecheckFails? && e.terminal
    case ReclaimSent =>
      e.PrecheckInfo? && e.info.phase != Gone && e.info.phase != Draining
      && (e.info.holder.None? || e.info.holder.value == s.routines[e.routine].vars.oldAttachmentId)
    case ExitedSent(a, reason) =>
      !s.stopped && s.token.Some? && a == s.token.value.attachmentId &&
      (|| e == CallStop(reason, true)
       || (PhaseStops(s, e) && e.onPhase == Stops(reason, true))
       || (!PhaseStops(s, e) && (Revokes(s, e, Superseded) || Revokes(s, e, HeartbeatTimeout))
           && e.onRevoked == Stops(reason, true)))
    case Claimed(t) => e == StartReply(Some(t)) || (e.ReclaimGranted? && e.token == t)
    case Rebound(run) => e.HookReturns? && s.routines[e.routine] == RebindStarting(run)
    case PhaseNotified(p) => e.WatcherInfo? && e.info.phase == p && s.knownPhase != Some(p)
    case RevokedNotified(reason) => Revokes(s, e, reason)
    case TerminalNotified(reason) => !s.terminalFired && Ends(s, e, reason)
  }

  // ----- the effects of the segments

  lemma StopEmits(o: Out, reason: Reason, graceful: bool, x: Effect)
    ensures x in Stop(o, reason, graceful).fx <==>
      x in o.fx || (graceful && !o.st.stopped && o.st.pinned.Some? && o.st.token.Some?
                    && x == ExitedSent(o.st.token.value.attachmentId, reason))
    ensures Stop(o, reason, graceful).st.stopped
  {
    hide Undisturbed, SameWork, SameSelf, Disarm;
  }

  lemma ListenEmits(o: Out, call: ListenerCall, x: Effect)
    ensures x in Listen(o, call).fx <==>
      x in o.fx || (call.Stops? && call.graceful && !o.st.stopped && o.st.pinned.Some? && o.st.token.Some?
                    && x == ExitedSent(o.st.token.value.attachmentId, call.reason))
    ensures if call.Stops? then Listen(o, call).st.stopped else Listen(o, call).st == o.st
  {
    hide Stop, Undisturbed;
    if call.Stops? { StopEmits(o, call.reason, call.graceful, x); }
  }

  lemma FireEmits(o: Out, reason: Reason, x: Effect)
    ensures x in FireTerminal(o, reason).fx <==>
      x in o.fx || (!o.st.terminalFired && x == TerminalNotified(reason))
  {
    hide Silence, Undisturbed, SameWork, SameSelf;
  }

  lemma ReconnectEmits(o: Out, reason: Reason, successor: Option<string>, reconnects: bool, x: Effect)
    requires o.st.pinned.Some? && o.st.token.Some?
    ensures x in FireTerminalOrReconnect(o, reason, successor, reconnects).fx <==>
      x in o.fx || (Unhindered(o.st) && !reconnects && x == TerminalNotified(reason))
  {
    hide FireTerminal, AddRoutine, Disarm, Undisturbed, SameWork, SameSelf;
    FireEmits(o, reason, x);
  }

  lemma RevokeEmits(o: Out, reason: Reason, onRevoked: ListenerCall, reconnects: bool, x: Effect)
    requires o.st.pinned.Some? && o.st.token.Some?
    ensures x in Revoke(o, reason, onRevoked, reconnects).fx <==>
      || x in o.fx || x == RevokedNotified(reason)
      || (onRevoked.Stops? && onRevoked.graceful && !o.st.stopped
          && x == ExitedSent(o.st.token.value.attachmentId, onRevoked.reason))
      || (Unhindered(o.st) && !onRevoked.Stops? && !reconnects && x == TerminalNotified(reason))
  {
    hide FireTerminalOrReconnect, Listen;
    var p := o.(fx := o.fx + [RevokedNotified(reason)]);
    ListenEmits(p, onRevoked, x);
    assert SameSelf(p.st, Listen(p, onRevoked).st);
    ReconnectEmits(Listen(p, onRevoked), reason, None, reconnects, x);
  }

  lemma NotifyEmits(s: State, info: Info, onPhase: ListenerCall, x: Effect)
    requires s.pinned.Some? && s.token.Some?
    ensures var n := NotifyPhase(s, info, onPhase);
      && (x in n.fx <==>
            s.knownPhase != Some(info.phase) &&
            (|| x == PhaseNotified(info.phase)
             || (onPhase.Stops? && onPhase.graceful && !s.stopped
                 && x == ExitedSent(s.token.value.attachmentId, onPhase.reason))))
      && n.st.token == s.token && n.st.pinned == s.pinned
      && if onPhase.Stops? && s.knownPhase != Some(info.phase) then n.st.stopped
         else n.st == s.(knownPhase := Some(info.phase))
  {
    hide Listen;
    var o := Out(s.(knownPhase := Some(info.phase)), [PhaseNotified(info.phase)]);
    ListenEmits(o, onPhase, x);
    assert SameSelf(o.st, Listen(o, onPhase).st);
  }

  lemma NotifyFired(s: State, info: Info, onPhase: ListenerCall)
    ensures NotifyPhase(s, info, onPhase).st.terminalFired == s.terminalFired
    ensures s.stopped ==> NotifyPhase(s, info, onPhase).st.stopped
    ensures NotifyPhase(s, info, onPhase).st.reconnecting == s.reconnecting
  {
    hide Undisturbed, SameWork, SameSelf;
  }

  lemma TickIsAttached(s: State, e: Event)
    requires Inv(s) && Enabled(s, e)
    requires e.WatcherInfo? || e.HistoryReply? || e.TickFails?
    ensures s.token.Some? && s.pinned == Some(s.token.value.runId)
  {
    if e.WatcherInfo? {
      assert e.id in s.pw.Live();
    } else {
      assert e.id in s.LoopOf(e.kind).Live();
    }
  }

  lemma InfoEmits(s: State, e: Event, x: Effect)
    requires Inv(s) && Enabled(s, e) && e.WatcherInfo?
    ensures x in Step(s, e).fx <==> Emits(s, e, x)
  {
    hide Step, Emits, Inv;
    InfoIs(s, e);
    var s' := s.(pw := s.pw.(backoff := 0.0));
    TickIsAttached(s, e);
    if x.TerminalNotified? {
      InfoTerminates(s, s', e, x);
    } else {
      InfoTells(s, s', e, x);
    }
  }

  /** The watcher's reply in two halves; the rest of the segment has no effects. */
  lemma InfoIs(s: State, e: Event)
    requires Enabled(s, e) && e.WatcherInfo?
    ensures var n := NotifyPhase(s.(pw := s.pw.(backoff := 0.0)), e.info, e.onPhase);
      Step(s, e).fx == JudgeInfo(n, e.info, e.onRevoked, e.reconnects).fx
  {
    hide NotifyPhase, JudgeInfo, Finish, Undisturbed, SameWork, SameSelf;
  }

  lemma InfoTerminates(s: State, s': State, e: Event, x: Effect)
    requires Enabled(s, e) && e.WatcherInfo? && x.TerminalNotified? && s' == s.(pw := s.pw.(backoff := 0.0))
    requires s.token.Some? && s.pinned.Some?
    ensures x in JudgeInfo(NotifyPhase(s', e.info, e.onPhase), e.info, e.onRevoked, e.reconnects).fx <==> Emits(s, e, x)
  {
    hide NotifyPhase, Revoke, FireTerminal, Undisturbed, SameWork, SameSelf;
    var n := NotifyPhase(s', e.info, e.onPhase);
    NotifyEmits(s', e.info, e.onPhase, x);
    NotifyFired(s', e.info, e.onPhase);
    RevokeEmits(n, Superseded, e.onRevoked, e.reconnects, x);
    RevokeEmits(n, HeartbeatTimeout, e.onRevoked, e.reconnects, x);
    FireEmits(n, Destroy, x);
  }

  lemma InfoTells(s: State, s': State, e: Event, x: Effect)
    requires Enabled(s, e) && e.WatcherInfo? && !x.TerminalNotified? && s' == s.(pw := s.pw.(backoff := 0.0))
    requires s.token.Some? && s.pinned.Some?
    ensures x in JudgeInfo(NotifyPhase(s', e.info, e.onPhase), e.info, e.onRevoked, e.reconnects).fx <==> Emits(s, e, x)
  {
    hide NotifyPhase, Revoke, FireTerminal, Undisturbed, SameWork, SameSelf;
    var n := NotifyPhase(s', e.info, e.onPhase);
    NotifyEmits(s', e.info, e.onPhase, x);
    NotifyFired(s', e.info, e.onPhase);
    RevokeEmits(n, Superseded, e.onRevoked, e.reconnects, x);
    RevokeEmits(n, HeartbeatTimeout, e.onRevoked, e.reconnects, x);
    FireEmits(n, Destroy, x);
  }

  lemma {:induction false} SuccessorIs(events: seq<string>)
    ensures FirstNonEmpty(events).Some? <==> exists h <- events :: h != ""
    ensures FirstNonEmpty(events).Some? ==> FirstNonEmpty(events).value != ""
  {
    if events != [] {
      SuccessorIs(events[1..]);
      assert events == [events[0]] + events[1..] && events[0] in events;
      if h :| h in events[1..] && h != "" {
        assert h in events;
      }
    }
  }

  lemma HistoryEmits(s: State, e: Event, x: Effect)
    requires Inv(s) && Enabled(s, e) && e.HistoryReply?
    ensures x in Step(s, e).fx <==> Emits(s, e, x)
  {
    hide FireTerminal, FireTerminalOrReconnect, SetTick, FirstNonEmpty, Inv, Undisturbed, SameWork, SameSelf;
    TickIsAttached(s, e);
    if e.history.Some? { SuccessorIs(e.history.value); }
    var o := Out(SetTick(s, e.kind, e.id, Verdict(true)), []);
    SetTickFlags(s, e.kind, e.id, Verdict(true));
    ReconnectEmits(o, ContinuedAsNew, FindSuccessor(e.history), e.reconnects, x);
    FireEmits(o, Destroy, x);
  }

  lemma SetTickFlags(s: State, k: LoopKind, id: nat, pc: TickPc)
    ensures var t := SetTick(s, k, id, pc);
      t.stopped == s.stopped && t.reconnecting == s.reconnecting && t.terminalFired == s.terminalFired
      && t.token == s.token && t.pinned == s.pinned && t.routines == s.routines
  {
  }

  lemma TimerEmits(s: State, e: Event, x: Effect)
    requires Inv(s) && Enabled(s, e) && e.TimerFires?
    ensures x in Step(s, e).fx <==> Emits(s, e, x)
  {
    hide Finish, SetTick;
  }

  lemma TickEmits(s: State, e: Event, x: Effect)
    requires Inv(s) && Enabled(s, e) && (e.HeartbeatAccepted? || e.TickFails? || e.TickReturns?)
    ensures x in Step(s, e).fx <==> Emits(s, e, x)
  {
    hide Finish, SetTick, Inv;
    if e.TickFails? {
      TickIsAttached(s, e);
    }
  }

  lemma GiveEmits(s: State, r: nat, reason: Reason, x: Effect)
    ensures x in Give(Out(s, []), r, reason).fx <==> !s.terminalFired && x == TerminalNotified(reason)
  {
    hide FireTerminal, Undisturbed, SameWork, SameSelf;
    FireEmits(Out(s, []), reason, x);
  }

  lemma HeadEmits(s: State, r: nat, v: LoopVars, x: Effect)
    ensures x in LoopHead(Out(s, []), r, v).fx <==>
      OutOfTime(s, v) && !s.terminalFired && x == TerminalNotified(ReconnectExhausted)
  {
    hide Give, Undisturbed, SameWork, SameSelf;
    GiveEmits(s, r, ReconnectExhausted, x);
  }

  lemma RetryEmits(s: State, r: nat, v: LoopVars, x: Effect)
    ensures x in Retry(Out(s, []), r, v).fx <==>
      OutOfTime(s, v) && !s.terminalFired && x == TerminalNotified(ReconnectExhausted)
  {
    hide LoopHead, NextReconnectBackoff;
    HeadEmits(s, r, v.(backoff := NextReconnectBackoff(s.config, v.backoff)), x);
  }

  lemma AttemptEmits(s: State, e: Event, x: Effect)
    requires Enabled(s, e) && (e.PrecheckInfo? || e.PrecheckFails? || e.DescribeReply? || e.ReclaimFails?)
    ensures x in Step(s, e).fx <==> Emits(s, e, x)
  {
    hide Give, Retry, SetRoutine;
    GiveEmits(s, e.routine, Destroy, x);
    GiveEmits(s, e.routine, Superseded, x);
    RetryEmits(s, e.routine, s.routines[e.routine].vars, x);
  }

  lemma HookEmits(s: State, e: Event, x: Effect)
    requires Inv(s) && Enabled(s, e) && e.HookReturns?
    ensures x in Step(s, e).fx <==> Emits(s, e, x)
  {
    hide LoopHead, Resume, SetRoutine, Repoint;
    ResumeEmits(s, e.routine);
    if s.routines[e.routine].LoopStarting? {
      HeadEmits(s, e.routine, LoopVars(s.routines[e.routine].oldAttachmentId, s.now + s.config.budgetMs,
                                       s.config.baseMs, 0), x);
    }
  }

  lemma ResumeEmits(s: State, r: nat)
    ensures Resume(Out(s, []), r).fx == []
  {
    hide ArmBoth, Undisturbed;
  }

  lemma CrashEmits(s: State, e: Event, x: Effect)
    requires Enabled(s, e) && e.Crashes?
    ensures x in Step(s, e).fx <==> Emits(s, e, x)
  {
    hide FireTerminal;
    FireEmits(EndRoutine(Out(s, []), e.routine), ReconnectExhausted, x);
  }

  lemma CallStopEmits(s: State, e: Event, x: Effect)
    requires Inv(s) && e.CallStop?
    ensures x in Step(s, e).fx <==> Emits(s, e, x)
  {
    hide Stop;
    StopEmits(Out(s, []), e.reason, e.graceful, x);
  }

  lemma OtherEmits(s: State, e: Event, x: Effect)
    requires Inv(s) && Enabled(s, e)
    requires e.CallStart? || e.StartReply? || e.SleepElapses? || e.Wakes? || e.ReclaimGranted? || e.SubclassSleeps?
      || e.ClockAdvances?
    ensures x in Step(s, e).fx <==> Emits(s, e, x)
  {
    hide FireTimer, AcceptHeartbeat, ReceiveInfo, FailTick, ReceiveHistory, ReturnFromTick, ReturnFromHook,
         ReceivePrecheck, FailPrecheck, ReceiveDescribe, FailReclaim, Stop, ArmBoth, FireTerminal, SetRoutine,
         Repoint, Inv, Undisturbed, SameWork, SameSelf;
  }

  /**
   * Every effect of every segment, in every state the invariant admits: the segment does it if and
   * only if the event asks for it.
   */
  lemma EffectsAreExact(s: State, e: Event, x: Effect)
    requires Inv(s)
    ensures x in Step(s, e).fx <==> Emits(s, e, x)
  {
    hide Step, Emits, Inv;
    if !Enabled(s, e) {
      DisabledStays(s, e);
      NothingEmitted(s, e, x);
    } else {
      match e
      case WatcherInfo(_, _, _, _, _) => InfoEmits(s, e, x);
      case HistoryReply(_, _, _, _) => HistoryEmits(s, e, x);
      case TimerFires(_, _) => TimerEmits(s, e, x);
      case HeartbeatAccepted(_) | TickFails(_, _, _) | TickReturns(_, _) => TickEmits(s, e, x);
      case HookReturns(_) => HookEmits(s, e, x);
      case PrecheckInfo(_, _) | PrecheckFails(_, _) | DescribeReply(_, _) | ReclaimFails(_, _) =>
        AttemptEmits(s, e, x);
      case Crashes(_) => CrashEmits(s, e, x);
      case CallStop(_, _) => CallStopEmits(s, e, x);
      case _ => OtherEmits(s, e, x);
    }
  }

  lemma NothingEmitted(s: State, e: Event, x: Effect)
    requires !Enabled(s, e)
    ensures !Emits(s, e, x)
  {
    hide Enabled;
  }

  // ----- in which order, and how often

  /** All segments but that of a watcher reply do at most one thing that can be seen. */
  lemma OneEffectEach(s: State, e: Event)
    requires Inv(s) && !e.WatcherInfo?
    ensures |Step(s, e).fx| <= 1
  {
    hide Step, Inv;
    if !Enabled(s, e) {
      DisabledStays(s, e);
    } else if IsTickEvent(e) {
      TickHasOne(s, e);
    } else if e.HookReturns? || e.PrecheckInfo? || e.PrecheckFails? || e.DescribeReply? || e.ReclaimFails?
      || e.Crashes? {
      RoutineHasOne(s, e);
    } else {
      OtherHasOne(s, e);
    }
  }

  lemma TickHasOne(s: State, e: Event)
    requires IsTickEvent(e) && !e.WatcherInfo?
    ensures |Step(s, e).fx| <= 1
  {
    hide Finish, SetTick, FindSuccessor, Silence, Disarm, AddRoutine, Undisturbed, SameWork, SameSelf;
  }

  lemma RoutineHasOne(s: State, e: Event)
    requires e.HookReturns? || e.PrecheckInfo? || e.PrecheckFails? || e.DescribeReply? || e.ReclaimFails? || e.Crashes?
    ensures |Step(s, e).fx| <= 1
  {
    hide Silence, SetRoutine, Repoint, ArmBoth, Undisturbed, SameWork, SameSelf;
  }

  lemma OtherHasOne(s: State, e: Event)
    requires !IsTickEvent(e)
    requires !(e.HookReturns? || e.PrecheckInfo? || e.PrecheckFails? || e.DescribeReply? || e.ReclaimFails?
      || e.Crashes?)
    ensures |Step(s, e).fx| <= 1
  {
    hide FireTimer, AcceptHeartbeat, ReceiveInfo, FailTick, ReceiveHistory, ReturnFromTick, ReturnFromHook,
         ReceivePrecheck, FailPrecheck, ReceiveDescribe, FailReclaim, Silence, ArmBoth, FireTerminal, SetRoutine,
         Repoint, Undisturbed, SameWork, SameSelf;
  }

  function Told(b: bool, x: Effect): seq<Effect> {
    if b then [x] else []
  }

  /** The exit signal of a listener that stops the adapter gracefully, if it still runs. */
  function Leaving(running: bool, call: ListenerCall, t: Token): seq<Effect> {
    if running && call.Stops? && call.graceful then [ExitedSent(t.attachmentId, call.reason)] else []
  }

  /**
   * A watcher reply is told in this order, each part at most once: the phase if it is news, a revoked lease, the
   * terminal; and right after the phase or the revocation the exit signal of the listener that stopped the adapter.
   */
  lemma InfoIsToldInOrder(s: State, e: Event)
    requires Inv(s) && Enabled(s, e) && e.WatcherInfo?
    ensures s.token.Some?
    ensures var t, news := s.token.value, s.knownPhase != Some(e.info.phase);
      var revoked := Revokes(s, e, Superseded) || Revokes(s, e, HeartbeatTimeout);
      var reason := if Revokes(s, e, Superseded) then Superseded else HeartbeatTimeout;
      Step(s, e).fx ==
        (if news then [PhaseNotified(e.info.phase)] + Leaving(!s.stopped, e.onPhase, t) else [])
        + (if revoked then [RevokedNotified(reason)] + Leaving(!s.stopped && !PhaseStops(s, e), e.onRevoked, t) else [])
        + (if revoked then Told(Unhindered(s) && !PhaseStops(s, e) && !e.onRevoked.Stops? && !e.reconnects,
                                TerminalNotified(reason))
           else Told(e.info.phase == Gone && !s.terminalFired, TerminalNotified(Destroy)))
  {
    hide NotifyPhase, Revoke, FireTerminal, Finish, Inv, Undisturbed, SameWork, SameSelf;
    TickIsAttached(s, e);
    var s' := s.(pw := s.pw.(backoff := 0.0));
    var n := NotifyPhase(s', e.info, e.onPhase);
    NotifyOrder(s', e.info, e.onPhase);
    NotifyFired(s', e.info, e.onPhase);
    RevokeOrder(n, Superseded, e.onRevoked, e.reconnects);
    RevokeOrder(n, HeartbeatTimeout, e.onRevoked, e.reconnects);
    FireOrder(n, Destroy);
  }

  lemma FireOrder(o: Out, reason: Reason)
    ensures FireTerminal(o, reason).fx == o.fx + Told(!o.st.terminalFired, TerminalNotified(reason))
  {
    hide Silence, Undisturbed, SameWork, SameSelf;
    assert o.fx + [] == o.fx;
  }

  lemma ListenOrder(o: Out, call: ListenerCall)
    requires o.st.pinned.Some? && o.st.token.Some?
    ensures Listen(o, call).fx == o.fx + Leaving(!o.st.stopped, call, o.st.token.value)
    ensures if call.Stops? then Listen(o, call).st.stopped else Listen(o, call).st == o.st
    ensures Listen(o, call).st.token == o.st.token && Listen(o, call).st.pinned == o.st.pinned
  {
    hide Disarm, Undisturbed, SameWork, SameSelf;
    assert o.fx + [] == o.fx;
  }

  lemma NotifyOrder(s: State, info: Info, onPhase: ListenerCall)
    requires s.pinned.Some? && s.token.Some?
    ensures var n := NotifyPhase(s, info, onPhase);
      && n.fx == (if s.knownPhase != Some(info.phase)
                  then [PhaseNotified(info.phase)] + Leaving(!s.stopped, onPhase, s.token.value) else [])
      && n.st.token == s.token && n.st.pinned == s.pinned
      && if onPhase.Stops? && s.knownPhase != Some(info.phase) then n.st.stopped
         else n.st == s.(knownPhase := Some(info.phase))
  {
    hide Listen, Leaving;
    ListenOrder(Out(s.(knownPhase := Some(info.phase)), [PhaseNotified(info.phase)]), onPhase);
  }

  lemma RevokeOrder(o: Out, reason: Reason, onRevoked: ListenerCall, reconnects: bool)
    requires o.st.pinned.Some? && o.st.token.Some?
    ensures Revoke(o, reason, onRevoked, reconnects).fx
         == o.fx + ([RevokedNotified(reason)] + Leaving(!o.st.stopped, onRevoked, o.st.token.value))
            + Told(Unhindered(o.st) && !onRevoked.Stops? && !reconnects, TerminalNotified(reason))
  {
    hide Listen, Leaving, FireTerminal, AddRoutine, Disarm, Undisturbed, SameWork, SameSelf;
    var p := o.(fx := o.fx + [RevokedNotified(reason)]);
    ListenOrder(p, onRevoked);
    FireOrder(Listen(p, onRevoked), reason);
    assert forall a: seq<Effect>, b, c :: a + [b] + c == a + ([b] + c);
    assert forall a: seq<Effect> :: a + [] == a;
  }
}
