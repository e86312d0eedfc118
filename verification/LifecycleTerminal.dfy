/** Whole-run theorems on what the adapter tells the outside: terminal notifications and `adapterExited`. */
module LifecycleTerminal {
  import opened Options
  import opened Lifecycle
  import opened LifecycleInvariants
  import opened LifecycleRuns
  import opened LifecycleTicks

  /** Terminal at most once, `adapterExited` at most once, and no `adapterExited` after a terminal. */
  ghost predicate Disciplined(trace: seq<Effect>) {
    && (forall i, j | 0 <= i < j < |trace| ::
          trace[i].TerminalNotified? ==> !trace[j].TerminalNotified? && !trace[j].ExitedSent?)
    && (forall i, j | 0 <= i < j < |trace| :: trace[i].ExitedSent? ==> !trace[j].ExitedSent?)
  }

  ghost predicate Notifies(fx: seq<Effect>) {
    exists i | 0 <= i < |fx| :: fx[i].TerminalNotified?
  }

  ghost predicate Exits(fx: seq<Effect>) {
    exists i | 0 <= i < |fx| :: fx[i].ExitedSent?
  }

  /** The part of a segment that began in `s` and has reached `o`. */
  ghost predicate Tidy(s: State, o: Out) {
    && (o.st.terminalFired ==> o.st.stopped)
    && (s.terminalFired ==> o.st.terminalFired)
    && (s.stopped ==> o.st.stopped)
    && (Notifies(o.fx) ==> !s.terminalFired && o.st.terminalFired)
    && (Exits(o.fx) ==> !s.stopped && o.st.stopped)
    && Disciplined(o.fx)
  }

  lemma StopTidy(s: State, o: Out, reason: Reason, graceful: bool)
    requires Tidy(s, o)
    ensures Tidy(s, Stop(o, reason, graceful))
  {
  }

  lemma ListenTidy(s: State, o: Out, call: ListenerCall)
    requires Tidy(s, o)
    ensures Tidy(s, Listen(o, call))
  {
    if call.Stops? { StopTidy(s, o, call.reason, call.graceful); }
  }

  lemma TerminalTidy(s: State, o: Out, reason: Reason)
    requires Tidy(s, o)
    ensures Tidy(s, FireTerminal(o, reason))
  {
    var f := FireTerminal(o, reason);
    if !o.st.terminalFired {
      assert f.fx[|o.fx|].TerminalNotified?;
      assert !Notifies(o.fx);
    }
  }

  lemma ReconnectTidy(s: State, o: Out, reason: Reason, successor: Option<string>, reconnects: bool)
    requires Tidy(s, o)
    ensures Tidy(s, FireTerminalOrReconnect(o, reason, successor, reconnects))
  {
    TerminalTidy(s, o, reason);
    TerminalTidy(s, o.(st := o.st.(reconnecting := true, hb := Disarm(o.st.hb), pw := Disarm(o.st.pw))),
      ReconnectExhausted);
  }

  lemma RevokedTidy(s: State, o: Out)
    requires Tidy(s, o)
    ensures forall reason :: Tidy(s, o.(fx := o.fx + [RevokedNotified(reason)]))
  {
  }

  lemma JudgeInfoTidy(s: State, o: Out, info: Info, onRevoked: ListenerCall, reconnects: bool)
    requires Tidy(s, o)
    ensures Tidy(s, JudgeInfo(o, info, onRevoked, reconnects))
  {
    hide FireTerminal, FireTerminalOrReconnect, Listen, Disciplined, Notifies, Exits, Undisturbed, SameWork;
    RevokedTidy(s, o);
    TerminalTidy(s, o, Destroy);
    var a, b := o.(fx := o.fx + [RevokedNotified(Superseded)]), o.(fx := o.fx + [RevokedNotified(HeartbeatTimeout)]);
    ListenTidy(s, a, onRevoked);
    ReconnectTidy(s, Listen(a, onRevoked), Superseded, None, reconnects);
    ListenTidy(s, b, onRevoked);
    ReconnectTidy(s, Listen(b, onRevoked), HeartbeatTimeout, None, reconnects);
  }

  lemma GiveTidy(s: State, o: Out, r: nat, reason: Reason)
    requires Tidy(s, o)
    ensures Tidy(s, Give(o, r, reason))
  {
    TerminalTidy(s, o, reason);
  }

  lemma RetryTidy(s: State, o: Out, r: nat, v: LoopVars)
    requires Tidy(s, o)
    ensures Tidy(s, Retry(o, r, v)) && Tidy(s, LoopHead(o, r, v))
  {
    GiveTidy(s, o, r, ReconnectExhausted);
  }

  lemma HookTidy(s: State, r: nat, pc: Routine)
    requires Inv(s)
    ensures Tidy(s, ReturnFromHook(s, r, pc))
  {
    if pc.LoopStarting? {
      RetryTidy(s, Out(s, []), r, LoopVars(pc.oldAttachmentId, s.now + s.config.budgetMs, s.config.baseMs, 0));
    }
  }

  lemma AttemptTidy(s: State, r: nat, v: LoopVars)
    requires Inv(s)
    ensures Tidy(s, Give(Out(s, []), r, Destroy)) && Tidy(s, Give(Out(s, []), r, Superseded))
    ensures Tidy(s, Retry(Out(s, []), r, v))
    ensures Tidy(s, FireTerminal(EndRoutine(Out(s, []), r), ReconnectExhausted))
  {
    GiveTidy(s, Out(s, []), r, Destroy);
    GiveTidy(s, Out(s, []), r, Superseded);
    RetryTidy(s, Out(s, []), r, v);
    TerminalTidy(s, EndRoutine(Out(s, []), r), ReconnectExhausted);
  }

  lemma ReceiveInfoTidy(s: State, id: nat, info: Info, onPhase: ListenerCall, onRevoked: ListenerCall, reconnects: bool)
    requires Inv(s)
    ensures Tidy(s, ReceiveInfo(s, id, info, onPhase, onRevoked, reconnects))
  {
    var s' := s.(pw := s.pw.(backoff := 0.0));
    ListenTidy(s, Out(s'.(knownPhase := Some(info.phase)), [PhaseNotified(info.phase)]), onPhase);
    JudgeInfoTidy(s, NotifyPhase(s', info, onPhase), info, onRevoked, reconnects);
  }

  lemma HistoryTidy(s: State, k: LoopKind, id: nat, history: Option<seq<string>>, reconnects: bool)
    requires Inv(s)
    ensures Tidy(s, ReceiveHistory(s, k, id, history, reconnects))
  {
    var o := Out(SetTick(s, k, id, Verdict(true)), []);
    ReconnectTidy(s, o, ContinuedAsNew, FindSuccessor(history), reconnects);
    TerminalTidy(s, o, Destroy);
  }

  lemma FinishTidy(s: State, o: Out, k: LoopKind, id: nat)
    requires Tidy(s, o)
    ensures Tidy(s, Finish(o, k, id))
  {
    hide Disciplined, Notifies, Exits, Undisturbed, SameWork, SameSelf;
  }

  lemma SetTickTidy(s: State, k: LoopKind, id: nat, pc: TickPc)
    ensures SetTick(s, k, id, pc).stopped == s.stopped && SetTick(s, k, id, pc).terminalFired == s.terminalFired
  {
  }

  lemma TimerTidy(s: State, k: LoopKind, id: nat)
    requires Inv(s)
    ensures Tidy(s, FireTimer(s, k, id))
  {
    hide Finish, SetTick, Inv;
    InvTidy(s);
    var t := s.WithLoop(k, s.LoopOf(k).(armed := s.LoopOf(k).armed - {id}));
    FinishTidy(s, Out(t, []), k, id);
    SetTickTidy(t, k, id, Rpc);
  }

  lemma FailTidy(s: State, k: LoopKind, id: nat, terminal: bool)
    requires Inv(s)
    ensures Tidy(s, FailTick(s, k, id, terminal))
  {
    hide SetTick, Inv;
    InvTidy(s);
    SetTickTidy(s, k, id, History);
    SetTickTidy(s, k, id, Verdict(false));
  }

  lemma ReturnTidy(s: State, k: LoopKind, id: nat, handled: bool)
    requires Inv(s)
    ensures Tidy(s, ReturnFromTick(s, k, id, handled))
  {
    hide Finish, NextTickBackoff, Inv;
    InvTidy(s);
    var l := s.LoopOf(k);
    FinishTidy(s, Out(s, []), k, id);
    FinishTidy(s, Out(s.WithLoop(k, l.(backoff := NextTickBackoff(l.backoff, s.config.heartbeatMs))), []), k, id);
  }

  lemma AcceptTidy(s: State, id: nat)
    requires Inv(s)
    ensures Tidy(s, AcceptHeartbeat(s, id))
  {
    hide Finish, Inv;
    InvTidy(s);
    FinishTidy(s, Out(s.(hb := s.hb.(backoff := 0.0)), []), Heartbeat, id);
  }

  lemma InvTidy(s: State)
    requires Inv(s)
    ensures Tidy(s, Out(s, [])) && Inv(s)
  {
  }

  lemma PlainTidy(s: State, e: Event)
    requires Inv(s) && Enabled(s, e)
    requires e.CallStart? || e.StartReply? || e.SleepElapses? || e.Wakes? || e.ReclaimGranted? || e.SubclassSleeps?
          || e.ClockAdvances?
    ensures Tidy(s, Step(s, e))
  {
    hide FireTimer, AcceptHeartbeat, ReceiveInfo, FailTick, ReceiveHistory, ReturnFromTick, ReturnFromHook,
         ReceivePrecheck, FailPrecheck, ReceiveDescribe, FailReclaim, Stop, FireTerminal, Inv, Undisturbed, SameWork,
         SameSelf;
    InvTidy(s);
  }

  lemma MoveTidy(s: State, r: nat, pc: Routine, x: Effect)
    requires Inv(s) && !x.TerminalNotified? && !x.ExitedSent?
    ensures Tidy(s, Out(SetRoutine(s, r, pc), [x]))
  {
  }

  lemma AttemptStepTidy(s: State, e: Event)
    requires Inv(s) && Enabled(s, e)
    requires e.PrecheckInfo? || e.PrecheckFails? || e.DescribeReply? || e.ReclaimFails?
    ensures Tidy(s, Step(s, e))
  {
    hide FireTimer, AcceptHeartbeat, ReceiveInfo, FailTick, ReceiveHistory, ReturnFromTick, ReturnFromHook,
         ElapseSleep, Wake, Stop, ArmBoth, FireTerminal, EndRoutine, SetRoutine, Give, Retry, Inv, Tidy;
    var r := e.routine;
    AttemptTidy(s, r, s.routines[r].vars);
    MoveTidy(s, r, LoopClaiming(s.routines[r].vars), ReclaimSent);
    MoveTidy(s, r, LoopDescribe(s.routines[r].vars), DescribeSent);
  }

  lemma StepTidy(s: State, e: Event)
    requires Inv(s)
    ensures Tidy(s, Step(s, e))
  {
    hide FireTimer, AcceptHeartbeat, ReceiveInfo, FailTick, ReceiveHistory, ReturnFromTick, ReturnFromHook,
         ElapseSleep, Wake, ReceivePrecheck, FailPrecheck, ReceiveDescribe, FailReclaim, Stop, ArmBoth, FireTerminal,
         EndRoutine, SetRoutine, Repoint, Inv, Tidy;
    InvTidy(s);
    if Enabled(s, e) {
      match e
      case CallStop(reason, graceful) => StopTidy(s, Out(s, []), reason, graceful);
      case WatcherInfo(id, info, onPhase, onRevoked, reconnects) =>
        ReceiveInfoTidy(s, id, info, onPhase, onRevoked, reconnects);
      case HistoryReply(k, id, history, reconnects) => HistoryTidy(s, k, id, history, reconnects);
      case TimerFires(k, id) => TimerTidy(s, k, id);
      case HeartbeatAccepted(id) => AcceptTidy(s, id);
      case TickFails(k, id, terminal) => FailTidy(s, k, id, terminal);
      case TickReturns(k, id) => ReturnTidy(s, k, id, s.LoopOf(k).ticks[id].handled);
      case HookReturns(r) => HookTidy(s, r, s.routines[r]);
      case Crashes(r) => AttemptTidy(s, r, LoopVars("", 0.0, 0.0, 0));
      case PrecheckInfo(_, _) => AttemptStepTidy(s, e);
      case PrecheckFails(_, _) => AttemptStepTidy(s, e);
      case DescribeReply(_, _) => AttemptStepTidy(s, e);
      case ReclaimFails(_, _) => AttemptStepTidy(s, e);
      case _ => PlainTidy(s, e);
    }
  }

  /** Everything the adapter did in a run, in order. */
  ghost function Trace(c: Config, es: seq<Event>): seq<Effect> {
    if es == [] then []
    else Trace(c, es[..|es| - 1]) + Step(Run(c, es[..|es| - 1]), es[|es| - 1]).fx
  }

  /** `past` was written by an adapter that is now `fired` or `stopped`, `fx` by its next segment. */
  lemma DisciplineJoins(past: seq<Effect>, fx: seq<Effect>, fired: bool, stopped: bool)
    requires Disciplined(past) && (Notifies(past) ==> fired) && (Exits(past) ==> stopped) && (fired ==> stopped)
    requires Disciplined(fx) && (Notifies(fx) ==> !fired) && (Exits(fx) ==> !stopped)
    ensures Disciplined(past + fx)
    ensures Notifies(past + fx) <==> Notifies(past) || Notifies(fx)
    ensures Exits(past + fx) <==> Exits(past) || Exits(fx)
  {
    var all := past + fx;
    assert forall i | 0 <= i < |past| :: all[i] == past[i];
    assert forall i | 0 <= i < |fx| :: all[|past| + i] == fx[i];
    assert forall i | |past| <= i < |all| :: all[i] == fx[i - |past|];
  }

  lemma {:induction false} TerminalDiscipline(c: Config, es: seq<Event>)
    ensures Disciplined(Trace(c, es))
    ensures Notifies(Trace(c, es)) ==> Run(c, es).terminalFired
    ensures Exits(Trace(c, es)) ==> Run(c, es).stopped
  {
    hide Step, Inv, Disciplined, Notifies, Exits;
    if es == [] {
      NothingSaid();
    } else {
      var before, e := es[..|es| - 1], es[|es| - 1];
      var s := Run(c, before);
      TerminalDiscipline(c, before);
      RunKeepsInv(c, before);
      InvTidy(s);
      StepTidy(s, e);
      DisciplineJoins(Trace(c, before), Step(s, e).fx, s.terminalFired, s.stopped);
    }
  }

  lemma NothingSaid()
    ensures Disciplined([]) && !Notifies([]) && !Exits([])
  {
  }

  // ----- `destroy` is never fired on a hunch

  ghost predicate Destroys(fx: seq<Effect>) {
    exists i | 0 <= i < |fx| :: fx[i] == TerminalNotified(Destroy)
  }

  /** The reply just received says that the workflow is gone. */
  predicate SaysGone(s: State, e: Event) {
    match e
    case WatcherInfo(_, info, _, _, _) =>
      info.phase == Gone && !(info.holder.Some? && s.token.Some? && info.holder.value != s.token.value.attachmentId)
    case HistoryReply(_, _, history, _) => FindSuccessor(history).None?
    case PrecheckInfo(_, info) => info.phase == Gone
    case DescribeReply(_, running) => !running
    case ReclaimFails(_, terminal) => terminal
    case _ => false
  }

  lemma FireDestroys(o: Out, reason: Reason)
    requires !Destroys(o.fx)
    ensures Destroys(FireTerminal(o, reason).fx) <==> reason == Destroy && !o.st.terminalFired
  {
    var f := FireTerminal(o, reason);
    if !o.st.terminalFired {
      assert f.fx[|o.fx|] == TerminalNotified(reason);
    }
  }

  lemma ReconnectDestroysNot(o: Out, reason: Reason, successor: Option<string>, reconnects: bool)
    requires !Destroys(o.fx) && reason != Destroy
    ensures !Destroys(FireTerminalOrReconnect(o, reason, successor, reconnects).fx)
  {
    FireDestroys(o, reason);
    FireDestroys(o.(st := o.st.(reconnecting := true, hb := Disarm(o.st.hb), pw := Disarm(o.st.pw))),
      ReconnectExhausted);
  }

  lemma RevokeDestroysNot(o: Out, reason: Reason, onRevoked: ListenerCall, reconnects: bool)
    requires !Destroys(o.fx) && reason != Destroy
    ensures !Destroys(Revoke(o, reason, onRevoked, reconnects).fx)
  {
    hide FireTerminalOrReconnect;
    ReconnectDestroysNot(Listen(o.(fx := o.fx + [RevokedNotified(reason)]), onRevoked), reason, None, reconnects);
  }

  lemma NotifyDestroysNot(s: State, info: Info, onPhase: ListenerCall)
    ensures var o := NotifyPhase(s, info, onPhase);
      !Destroys(o.fx) && o.st.terminalFired == s.terminalFired && o.st.token == s.token
  {
    hide Undisturbed, SameWork;
  }

  lemma InfoDestroys(s: State, id: nat, info: Info, onPhase: ListenerCall, onRevoked: ListenerCall, reconnects: bool)
    ensures Destroys(ReceiveInfo(s, id, info, onPhase, onRevoked, reconnects).fx)
       <==> SaysGone(s, WatcherInfo(id, info, onPhase, onRevoked, reconnects)) && !s.terminalFired
  {
    hide NotifyPhase, FireTerminal, Revoke, Finish, Destroys, Undisturbed, SameWork;
    var o := NotifyPhase(s.(pw := s.pw.(backoff := 0.0)), info, onPhase);
    NotifyDestroysNot(s.(pw := s.pw.(backoff := 0.0)), info, onPhase);
    FireDestroys(o, Destroy);
    RevokeDestroysNot(o, Superseded, onRevoked, reconnects);
    RevokeDestroysNot(o, HeartbeatTimeout, onRevoked, reconnects);
  }

  lemma HistoryDestroys(s: State, k: LoopKind, id: nat, history: Option<seq<string>>, reconnects: bool)
    ensures Destroys(ReceiveHistory(s, k, id, history, reconnects).fx)
       <==> SaysGone(s, HistoryReply(k, id, history, reconnects)) && !s.terminalFired
  {
    hide FireTerminal, FireTerminalOrReconnect, SetTick, FindSuccessor, Undisturbed, SameWork;
    var o := Out(SetTick(s, k, id, Verdict(true)), []);
    SetTickTidy(s, k, id, Verdict(true));
    FireDestroys(o, Destroy);
    ReconnectDestroysNot(o, ContinuedAsNew, FindSuccessor(history), reconnects);
  }

  lemma AttemptDestroys(s: State, r: nat, v: LoopVars)
    ensures Destroys(Give(Out(s, []), r, Destroy).fx) <==> !s.terminalFired
    ensures !Destroys(Give(Out(s, []), r, Superseded).fx) && !Destroys(Retry(Out(s, []), r, v).fx)
  {
    hide FireTerminal, Undisturbed, SameWork;
    FireDestroys(Out(s, []), Destroy);
    FireDestroys(Out(s, []), Superseded);
    FireDestroys(Out(s, []), ReconnectExhausted);
  }

  lemma TickDestroysNot(s: State, e: Event)
    requires e.TimerFires? || e.HeartbeatAccepted? || e.TickFails? || e.TickReturns?
    ensures !Destroys(Step(s, e).fx)
  {
    hide Finish, SetTick, Undisturbed, SameWork, SameSelf;
  }

  lemma RoutineDestroysNot(s: State, e: Event)
    requires e.HookReturns? || e.Crashes?
    ensures !Destroys(Step(s, e).fx)
  {
    hide FireTerminal, ArmBoth, Repoint, SetRoutine, Silence, Undisturbed, SameWork, SameSelf;
    if e.Crashes? {
      FireDestroys(EndRoutine(Out(s, []), e.routine), ReconnectExhausted);
    } else {
      FireDestroys(Out(s, []), ReconnectExhausted);
    }
  }

  lemma OtherDestroysNot(s: State, e: Event)
    requires !(e.WatcherInfo? || e.HistoryReply? || e.PrecheckInfo? || e.PrecheckFails? || e.DescribeReply?
      || e.ReclaimFails?)
    ensures !Destroys(Step(s, e).fx)
  {
    hide FireTimer, AcceptHeartbeat, FailTick, ReturnFromTick, ReturnFromHook, ArmBoth, FireTerminal, Repoint,
         SetRoutine, Silence, Undisturbed, SameWork, SameSelf;
    if IsTickEvent(e) {
      TickDestroysNot(s, e);
    } else if e.HookReturns? || e.Crashes? {
      RoutineDestroysNot(s, e);
    }
  }

  /** One step notifies `destroy` exactly when its reply says gone and no terminal came before. */
  lemma StepDestroys(s: State, e: Event)
    ensures Destroys(Step(s, e).fx) <==> Enabled(s, e) && SaysGone(s, e) && !s.terminalFired
  {
    hide FireTimer, AcceptHeartbeat, ReceiveInfo, FailTick, ReceiveHistory, ReturnFromTick, ReturnFromHook, ElapseSleep,
         Wake, Stop, ArmBoth, FireTerminal, LoopHead, Give, Retry, SetRoutine, Undisturbed, SameWork;
    if Enabled(s, e) {
      match e
      case WatcherInfo(id, info, onPhase, onRevoked, reconnects) =>
        InfoDestroys(s, id, info, onPhase, onRevoked, reconnects);
      case HistoryReply(k, id, history, reconnects) => HistoryDestroys(s, k, id, history, reconnects);
      case PrecheckInfo(r, _) => AttemptDestroys(s, r, s.routines[r].vars);
      case PrecheckFails(r, _) => AttemptDestroys(s, r, s.routines[r].vars);
      case DescribeReply(r, _) => AttemptDestroys(s, r, s.routines[r].vars);
      case ReclaimFails(r, _) => AttemptDestroys(s, r, s.routines[r].vars);
      case _ => OtherDestroysNot(s, e);
    }
  }

  lemma InfoAsksNoDescribe(s: State, id: nat, info: Info, onPhase: ListenerCall, onRevoked: ListenerCall,
      reconnects: bool, r: nat)
    ensures AwaitsDescribe(ReceiveInfo(s, id, info, onPhase, onRevoked, reconnects).st, r) ==> AwaitsDescribe(s, r)
  {
    hide NotifyPhase, JudgeInfo, Finish;
    var n := NotifyPhase(s.(pw := s.pw.(backoff := 0.0)), info, onPhase);
    assert AwaitsDescribe(JudgeInfo(n, info, onRevoked, reconnects).st, r) ==> AwaitsDescribe(n.st, r);
  }

  lemma TickAsksNoDescribe(s: State, e: Event, r: nat)
    requires IsTickEvent(e)
    ensures AwaitsDescribe(Step(s, e).st, r) ==> AwaitsDescribe(s, r)
  {
    hide FireTerminal, FireTerminalOrReconnect, ReceiveInfo, Finish;
    if e.WatcherInfo? {
      InfoAsksNoDescribe(s, e.id, e.info, e.onPhase, e.onRevoked, e.reconnects, r);
    } else if e.HistoryReply? {
      assert AwaitsDescribe(SetTick(s, e.kind, e.id, Verdict(true)), r) ==> AwaitsDescribe(s, r);
    }
  }

  lemma DescribeFromError(s: State, e: Event, r: nat)
    requires !AwaitsDescribe(s, r) && AwaitsDescribe(Step(s, e).st, r)
    ensures e == PrecheckFails(r, true) && Enabled(s, e)
  {
    hide Step;
    if IsTickEvent(e) {
      TickAsksNoDescribe(s, e, r);
    } else if e.PrecheckFails? && e.terminal {
      PrecheckAsksDescribe(s, e);
    } else {
      OthersMoveNoTick(s, e);
    }
  }

  /** A tick waits for history only after its own RPC failed with a terminal-class error. */
  lemma {:induction false} HistoryAfterTerminalError(c: Config, es: seq<Event>, k: LoopKind, id: nat)
    requires Waits(Run(c, es), k, id, History)
    ensures exists j | 0 <= j < |es| :: es[j] == TickFails(k, id, true) && Enabled(Run(c, es[..j]), es[j])
  {
    hide Step;
    var n := |es| - 1;
    var s := Run(c, es[..n]);
    if Waits(s, k, id, History) {
      HistoryAfterTerminalError(c, es[..n], k, id);
      var j :| 0 <= j < n && es[..n][j] == TickFails(k, id, true) && Enabled(Run(c, es[..n][..j]), es[j]);
      assert es[..n][..j] == es[..j];
    } else {
      WaitBegins(s, es[n], k, id, History);
    }
  }

  /** The tiebreaker runs only after the pre-check of the same routine failed with a terminal-class error. */
  lemma {:induction false} DescribeAfterTerminalError(c: Config, es: seq<Event>, r: nat)
    requires AwaitsDescribe(Run(c, es), r)
    ensures exists j | 0 <= j < |es| :: es[j] == PrecheckFails(r, true) && Enabled(Run(c, es[..j]), es[j])
  {
    var n := |es| - 1;
    var s := Run(c, es[..n]);
    if AwaitsDescribe(s, r) {
      DescribeAfterTerminalError(c, es[..n], r);
      var j :| 0 <= j < n && es[..n][j] == PrecheckFails(r, true) && Enabled(Run(c, es[..n][..j]), es[j]);
      assert es[..n][..j] == es[..j];
    } else {
      DescribeFromError(s, es[n], r);
    }
  }

  /** The evidence for a `destroy` anywhere in a run: the reply that caused it, and before an inconclusive one
    (no successor in the history, `describe` not running) the terminal-class error that asked for it.
   */
  lemma DestroyHasWitness(c: Config, es: seq<Event>, i: nat)
    requires i < |es| && Destroys(At(c, es, i).fx)
    ensures SaysGone(Run(c, es[..i]), es[i]) && Enabled(Run(c, es[..i]), es[i])
    ensures es[i].HistoryReply? ==>
              exists j | 0 <= j < i :: es[j] == TickFails(es[i].kind, es[i].id, true) && Enabled(Run(c, es[..j]), es[j])
    ensures es[i].DescribeReply? ==>
              exists j | 0 <= j < i :: es[j] == PrecheckFails(es[i].routine, true) && Enabled(Run(c, es[..j]), es[j])
  {
    hide Step;
    StepDestroys(Run(c, es[..i]), es[i]);
    if es[i].HistoryReply? {
      HistoryAfterTerminalError(c, es[..i], es[i].kind, es[i].id);
      var j :| 0 <= j < i && es[..i][j] == TickFails(es[i].kind, es[i].id, true)
        && Enabled(Run(c, es[..i][..j]), es[j]);
      assert es[..i][..j] == es[..j];
    } else if es[i].DescribeReply? {
      DescribeAfterTerminalError(c, es[..i], es[i].routine);
      var j :| 0 <= j < i && es[..i][j] == PrecheckFails(es[i].routine, true) && Enabled(Run(c, es[..i][..j]), es[j]);
      assert es[..i][..j] == es[..j];
    }
  }

  // ----- a terminal after a stop

  /**
   * The replies and returns on which an adapter that is already stopped still gives up: they decide `destroy` or
   * `superseded`, or they send the reconnect loop back to its head, which a stopped adapter leaves as exhausted.
   */
  predicate GivesUp(s: State, e: Event) {
    match e
    case WatcherInfo(_, _, _, _, _) | HistoryReply(_, _, _, _) => SaysGone(s, e)
    case HookReturns(r) => r in s.routines && s.routines[r].LoopStarting?
    case PrecheckInfo(r, info) =>
      r in s.routines && s.routines[r].LoopPrecheck?
      && (info.phase == Gone || info.phase == Draining
          || (info.holder.Some? && info.holder.value != s.routines[r].vars.oldAttachmentId))
    case PrecheckFails(_, terminal) => !terminal
    case DescribeReply(_, _) | ReclaimFails(_, _) | Crashes(_) => true
    case _ => false
  }

  lemma FireNotifies(o: Out, reason: Reason)
    requires !Notifies(o.fx)
    ensures Notifies(FireTerminal(o, reason).fx) <==> !o.st.terminalFired
  {
    hide Silence, Undisturbed, SameWork, SameSelf;
    var f := FireTerminal(o, reason);
    if !o.st.terminalFired {
      assert f.fx[|o.fx|].TerminalNotified?;
    }
  }

  lemma StoppedInfoNotifies(s: State, e: Event)
    requires s.stopped && e.WatcherInfo? && Enabled(s, e)
    ensures Notifies(Step(s, e).fx) <==> !s.terminalFired && GivesUp(s, e)
  {
    hide FireTerminal, Finish, Silence, Undisturbed, SameWork, SameSelf;
    var s' := s.(pw := s.pw.(backoff := 0.0));
    var n := NotifyPhase(s', e.info, e.onPhase);
    assert n.st == s'.(knownPhase := Some(e.info.phase)) && !Notifies(n.fx);
    FireNotifies(n, Destroy);
  }

  lemma StoppedHistoryNotifies(s: State, e: Event)
    requires s.stopped && e.HistoryReply? && Enabled(s, e)
    ensures Notifies(Step(s, e).fx) <==> !s.terminalFired && GivesUp(s, e)
  {
    hide FireTerminal, SetTick, FindSuccessor, Undisturbed, SameWork, SameSelf;
    SetTickTidy(s, e.kind, e.id, Verdict(true));
    SetTickStops(s, e.kind, e.id, Verdict(true));
    FireNotifies(Out(SetTick(s, e.kind, e.id, Verdict(true)), []), Destroy);
  }

  lemma StoppedRoutineNotifies(s: State, e: Event)
    requires s.stopped && Enabled(s, e)
    requires e.HookReturns? || e.PrecheckInfo? || e.PrecheckFails? || e.DescribeReply? || e.ReclaimFails? || e.Crashes?
    ensures Notifies(Step(s, e).fx) <==> !s.terminalFired && GivesUp(s, e)
  {
    hide FireTerminal, SetRoutine, Repoint, ArmBoth, Undisturbed, SameWork, SameSelf;
    FireNotifies(Out(s, []), Destroy);
    FireNotifies(Out(s, []), Superseded);
    FireNotifies(Out(s, []), ReconnectExhausted);
    if e.Crashes? {
      FireNotifies(EndRoutine(Out(s, []), e.routine), ReconnectExhausted);
    }
  }

  lemma StoppedTickNotifiesNot(s: State, e: Event)
    requires e.TimerFires? || e.HeartbeatAccepted? || e.TickFails? || e.TickReturns?
    ensures !Notifies(Step(s, e).fx)
  {
    hide Finish, SetTick, Undisturbed, SameWork, SameSelf;
  }

  lemma StoppedOtherNotifiesNot(s: State, e: Event)
    requires s.stopped && !IsTickEvent(e)
    requires !(e.HookReturns? || e.PrecheckInfo? || e.PrecheckFails? || e.DescribeReply? || e.ReclaimFails?
      || e.Crashes?)
    ensures !Notifies(Step(s, e).fx)
  {
    hide FireTimer, AcceptHeartbeat, FailTick, ReturnFromTick, ReturnFromHook, ArmBoth, FireTerminal, Repoint,
         SetRoutine, Silence, Undisturbed, SameWork, SameSelf;
  }

  /**
   * When a stopped adapter still notifies a terminal: exactly on those replies, if none was notified before. An abort
   * during the backoff sleep is not among them.
   */
  lemma StoppedNotifies(s: State, e: Event)
    requires s.stopped
    ensures Notifies(Step(s, e).fx) <==> Enabled(s, e) && !s.terminalFired && GivesUp(s, e)
  {
    hide Step;
    if !Enabled(s, e) {
      DisabledStays(s, e);
    } else if e.WatcherInfo? {
      StoppedInfoNotifies(s, e);
    } else if e.HistoryReply? {
      StoppedHistoryNotifies(s, e);
    } else if IsTickEvent(e) {
      StoppedTickNotifiesNot(s, e);
    } else if e.HookReturns? || e.PrecheckInfo? || e.PrecheckFails? || e.DescribeReply? || e.ReclaimFails?
      || e.Crashes? {
      StoppedRoutineNotifies(s, e);
    } else {
      StoppedOtherNotifiesNot(s, e);
    }
  }

  /**
   * It does happen: the lease is reaped, the reconnect loop sleeps and sends its pre-check, the adapter is stopped, the
   * pre-check fails, and the loop reports exhaustion.
   */
  lemma TerminalAfterStop(c: Config, t: Token)
    requires c.Valid() && 0.0 < c.budgetMs
    ensures exists es: seq<Event> ::
      && es != [] && Run(c, es[..|es| - 1]).stopped && !Notifies(Trace(c, es[..|es| - 1]))
      && At(c, es, |es| - 1).fx == [TerminalNotified(ReconnectExhausted)]
  {
    hide Step, Steps, Run, Notifies, Trace;
    AttachRuns(c, t);
    SleepingRuns(c, t);
    StoppedRuns(c, t);
    var es := Attach(t) + Reaped(c) + StoppedAtPrecheck(c);
    RunResumes(c, Attach(t), Reaped(c));
    RunResumes(c, Attach(t) + Reaped(c), StoppedAtPrecheck(c));
    var all := es + [PrecheckFails(2, false)];
    assert all[..|all| - 1] == es;
    ExhaustedAtHead(StoppedMeanwhile(c, t));
    TerminalDiscipline(c, es);
  }
}
