/** What every reachable state of the attachment lifecycle satisfies. */
module LifecycleInvariants {
  import opened Options
  import opened Lifecycle

  ghost predicate Fresh(l: Loop, nextId: nat) {
    && (forall id :: id in l.armed ==> id < nextId)
    && (forall id :: id in l.ticks ==> id < nextId)
    && l.armed.Keys !! l.ticks.Keys
    && (l.field.Some? ==> l.field.value < nextId)
  }

  /** Timers, ticks, sleepers and routines carry distinct numbers below `nextId`. */
  ghost predicate Numbered(s: State) {
    && Fresh(s.hb, s.nextId) && Fresh(s.pw, s.nextId)
    && (forall id :: id in s.sleepers ==> id < s.nextId)
    && (forall r :: r in s.routines ==> r < s.nextId)
  }

  ghost predicate Solo(live: set<nat>, r: nat) {
    live == {r}
  }

  /** Exactly one recovery routine is live while `reconnecting` is set, and none otherwise. */
  ghost predicate OneRecovery(s: State) {
    if s.reconnecting then exists r :: Solo(s.routines.Keys, r) else s.routines.Keys == {}
  }

  /** After a successful start the token names the run of the pinned handle; before it nothing is going on. */
  ghost predicate Coherent(s: State) {
    if s.start == Started then s.token.Some? && s.pinned == Some(s.token.value.runId)
    else s.token.None? && s.pinned.None? && Dormant(s)
  }

  ghost predicate Dormant(s: State) {
    s.hb.Live() == {} && s.pw.Live() == {} && !s.reconnecting
  }

  ghost predicate Hushed(s: State) {
    && (s.terminalFired ==> s.stopped)
    && (s.stopped ==> s.sleepers == map[])
    && (forall r :: r in s.routines && s.routines[r].LoopAborted? ==> s.stopped)
    && Asleep(s)
  }

  ghost predicate Asleep(s: State) {
    forall r :: r in s.routines && s.routines[r].LoopSleeping? ==> s.routines[r].sleeper in s.sleepers
  }

  ghost predicate Going(live: set<nat>) {
    exists id :: id in live
  }

  ghost predicate Unattended(s: State) {
    s.start == Started && !s.stopped && !s.reconnecting
  }

  /** No orphaned loops: while the adapter runs and no recovery owns the timers, both loops go on. */
  ghost predicate Alive(s: State) {
    Unattended(s) ==> Going(s.hb.Live()) && Going(s.pw.Live())
  }

  /** All of the above but `Alive`, which is suspended while a tick or a recovery is inside its segment. */
  ghost predicate Body(s: State) {
    Numbered(s) && OneRecovery(s) && Coherent(s) && Hushed(s)
  }

  ghost predicate Inv(s: State) {
    Body(s) && Alive(s)
  }

  // ----- the helpers

  lemma SilenceKeeps(s: State)
    requires Numbered(s) && OneRecovery(s) && Coherent(s) && Asleep(s)
    ensures Body(Silence(s))
  {
    if r :| s.reconnecting && Solo(s.routines.Keys, r) {
      assert Solo(Silence(s).routines.Keys, r);
    }
  }

  lemma StopKeeps(o: Out, reason: Reason, graceful: bool)
    requires Body(o.st)
    ensures Body(Stop(o, reason, graceful).st)
    ensures Stop(o, reason, graceful).st.stopped
  {
    SilenceKeeps(o.st);
  }

  lemma ListenKeeps(o: Out, call: ListenerCall)
    requires Body(o.st)
    ensures Body(Listen(o, call).st)
    ensures var t := Listen(o, call).st; t == o.st || t.stopped
  {
    if call.Stops? {
      StopKeeps(o, call.reason, call.graceful);
    }
  }

  lemma TerminalKeeps(o: Out, reason: Reason)
    requires Body(o.st)
    ensures Body(FireTerminal(o, reason).st)
    ensures FireTerminal(o, reason).st.stopped
  {
    SilenceKeeps(o.st.(terminalFired := true));
  }

  lemma EndKeeps(o: Out, r: nat)
    requires Body(o.st) && r in o.st.routines
    ensures Body(EndRoutine(o, r).st)
  {
    var q :| Solo(o.st.routines.Keys, q);
    assert q == r;
  }

  lemma GiveKeeps(o: Out, r: nat, reason: Reason)
    requires Body(o.st) && r in o.st.routines
    ensures Inv(Give(o, r, reason).st)
  {
    TerminalKeeps(o, reason);
    EndKeeps(FireTerminal(o, reason), r);
  }

  lemma AddKeeps(s: State, r: Routine)
    requires Body(s.(reconnecting := false)) && !s.stopped && s.start == Started && s.reconnecting && !r.LoopSleeping?
      && !r.LoopAborted?
    ensures Body(AddRoutine(s, r))
  {
    assert Solo(AddRoutine(s, r).routines.Keys, s.nextId);
  }

  lemma ReconnectKeeps(o: Out, reason: Reason, successor: Option<string>, reconnects: bool)
    requires Body(o.st) && o.st.start == Started
    ensures Body(FireTerminalOrReconnect(o, reason, successor, reconnects).st)
    ensures var t := FireTerminalOrReconnect(o, reason, successor, reconnects).st;
      t == o.st || t.stopped || t.reconnecting
  {
    hide FireTerminal;
    TerminalKeeps(o, reason);
    if !(o.st.stopped || o.st.terminalFired || o.st.reconnecting) && reconnects {
      var s := o.st.(reconnecting := true, hb := Disarm(o.st.hb), pw := Disarm(o.st.pw));
      if reason == ContinuedAsNew && successor.Some? {
        AddKeeps(s, RebindStarting(successor.value));
      } else {
        AddKeeps(s, LoopStarting(s.token.value.attachmentId));
      }
    }
  }

  lemma ArmKeeps(s: State, k: LoopKind)
    requires Body(s) && s.start == Started
    ensures Body(Arm(s, k)) && Going(Arm(s, k).LoopOf(k).Live())
    ensures Going(s.hb.Live()) ==> Going(Arm(s, k).hb.Live())
    ensures Going(s.pw.Live()) ==> Going(Arm(s, k).pw.Live())
  {
    var t := Arm(s, k);
    assert s.nextId in t.LoopOf(k).Live();
  }

  lemma BothKeep(s: State)
    requires Body(s) && s.start == Started
    ensures Inv(ArmBoth(s))
  {
    ArmKeeps(s, Heartbeat);
    ArmKeeps(Arm(s, Heartbeat), Watcher);
  }

  lemma SetTickKeeps(s: State, k: LoopKind, id: nat, pc: TickPc)
    requires Body(s) && s.start == Started && id < s.nextId && id !in s.LoopOf(k).armed
    ensures Body(SetTick(s, k, id, pc)) && Going(SetTick(s, k, id, pc).LoopOf(k).Live())
    ensures forall j | j != k :: SetTick(s, k, id, pc).LoopOf(j) == s.LoopOf(j)
  {
    var t := SetTick(s, k, id, pc);
    assert id in t.LoopOf(k).Live();
  }

  /** Both loops go on, except perhaps the one whose tick is inside its segment. */
  ghost predicate AliveBut(s: State, k: LoopKind) {
    Unattended(s) ==> forall j | j != k :: Going(s.LoopOf(j).Live())
  }

  lemma FinishKeeps(o: Out, k: LoopKind, id: nat)
    requires Body(o.st) && AliveBut(o.st, k) && o.st.start == Started
    ensures Inv(Finish(o, k, id).st)
  {
    var l := o.st.LoopOf(k);
    var s := o.st.WithLoop(k, l.(ticks := l.ticks - {id}));
    assert Body(s);
    if !s.stopped && !s.reconnecting && !s.terminalFired {
      assert forall j | j != k :: Going(s.LoopOf(j).Live()) by {
        forall j | j != k ensures Going(s.LoopOf(j).Live()) {
          assert Going(o.st.LoopOf(j).Live()) && s.LoopOf(j) == o.st.LoopOf(j);
        }
      }
      ArmKeeps(s, k);
      match k
      case Heartbeat => assert Going(s.LoopOf(Watcher).Live());
      case Watcher => assert Going(s.LoopOf(Heartbeat).Live());
    }
  }

  // ----- the segments

  lemma StartReplyKeeps(s: State, token: Token)
    requires Inv(s) && s.start == Claiming
    ensures Inv(Step(s, StartReply(Some(token))).st)
  {
    BothKeep(s.(start := Started, token := Some(token), pinned := Some(token.runId)));
  }

  lemma FireTimerKeeps(s: State, k: LoopKind, id: nat)
    requires Inv(s) && id in s.LoopOf(k).armed
    ensures Inv(FireTimer(s, k, id).st)
  {
    hide Finish, SetTick;
    var t := s.WithLoop(k, s.LoopOf(k).(armed := s.LoopOf(k).armed - {id}));
    FiredKeeps(s, k, id);
    if s.stopped || s.terminalFired || s.reconnecting {
      FinishKeeps(Out(t, []), k, id);
    } else {
      SetTickKeeps(t, k, id, Rpc);
      TickIsAlive(t, k, id);
    }
  }

  /** The timer is gone from its loop, and the tick has not begun. */
  lemma FiredKeeps(s: State, k: LoopKind, id: nat)
    requires Inv(s) && id in s.LoopOf(k).armed
    ensures var t := s.WithLoop(k, s.LoopOf(k).(armed := s.LoopOf(k).armed - {id}));
      && Body(t) && AliveBut(t, k) && t.start == Started && id < t.nextId && id !in t.LoopOf(k).armed
      && t.stopped == s.stopped && t.terminalFired == s.terminalFired && t.reconnecting == s.reconnecting
      && t.pinned == s.pinned && t.token == s.token && s.token.Some? && s.pinned.Some?
  {
    assert id in s.LoopOf(k).Live();
  }

  lemma TickIsAlive(t: State, k: LoopKind, id: nat)
    requires Body(t) && AliveBut(t, k) && t.start == Started && id < t.nextId && id !in t.LoopOf(k).armed
    ensures Alive(SetTick(t, k, id, Rpc))
  {
    SetTickKeeps(t, k, id, Rpc);
    match k
    case Heartbeat => assert Unattended(t) ==> Going(t.LoopOf(Watcher).Live());
    case Watcher => assert Unattended(t) ==> Going(t.LoopOf(Heartbeat).Live());
  }

  lemma AcceptHeartbeatKeeps(s: State, id: nat)
    requires Inv(s) && id in s.hb.ticks
    ensures Inv(AcceptHeartbeat(s, id).st)
  {
    assert id in s.hb.Live();
    FinishKeeps(Out(s.(hb := s.hb.(backoff := 0.0)), []), Heartbeat, id);
  }

  lemma RevokeKeeps(o: Out, reason: Reason, onRevoked: ListenerCall, reconnects: bool)
    requires Body(o.st) && AliveBut(o.st, Watcher) && o.st.start == Started
    ensures Body(Revoke(o, reason, onRevoked, reconnects).st)
    ensures AliveBut(Revoke(o, reason, onRevoked, reconnects).st, Watcher)
    ensures Revoke(o, reason, onRevoked, reconnects).st.start == Started
  {
    var o' := o.(fx := o.fx + [RevokedNotified(reason)]);
    ListenKeeps(o', onRevoked);
    ReconnectKeeps(Listen(o', onRevoked), reason, None, reconnects);
  }

  lemma NotifyPhaseKeeps(s: State, info: Info, onPhase: ListenerCall)
    requires Inv(s) && s.start == Started
    ensures Body(NotifyPhase(s, info, onPhase).st) && AliveBut(NotifyPhase(s, info, onPhase).st, Watcher)
    ensures NotifyPhase(s, info, onPhase).st.start == Started
  {
    ListenKeeps(Out(s.(knownPhase := Some(info.phase)), [PhaseNotified(info.phase)]), onPhase);
  }

  lemma JudgeInfoKeeps(o: Out, info: Info, onRevoked: ListenerCall, reconnects: bool)
    requires Body(o.st) && AliveBut(o.st, Watcher) && o.st.start == Started
    ensures Body(JudgeInfo(o, info, onRevoked, reconnects).st)
    ensures AliveBut(JudgeInfo(o, info, onRevoked, reconnects).st, Watcher)
    ensures JudgeInfo(o, info, onRevoked, reconnects).st.start == Started
  {
    RevokeKeeps(o, Superseded, onRevoked, reconnects);
    RevokeKeeps(o, HeartbeatTimeout, onRevoked, reconnects);
    TerminalKeeps(o, Destroy);
  }

  lemma ReceiveInfoKeeps(s: State, id: nat, info: Info, onPhase: ListenerCall, onRevoked: ListenerCall,
      reconnects: bool)
    requires Inv(s) && id in s.pw.ticks
    ensures Inv(ReceiveInfo(s, id, info, onPhase, onRevoked, reconnects).st)
  {
    assert id in s.pw.Live();
    var s' := s.(pw := s.pw.(backoff := 0.0));
    NotifyPhaseKeeps(s', info, onPhase);
    var o := NotifyPhase(s', info, onPhase);
    JudgeInfoKeeps(o, info, onRevoked, reconnects);
    FinishKeeps(JudgeInfo(o, info, onRevoked, reconnects), Watcher, id);
  }

  lemma FailTickKeeps(s: State, k: LoopKind, id: nat, terminal: bool)
    requires Inv(s) && id in s.LoopOf(k).ticks
    ensures Inv(FailTick(s, k, id, terminal).st)
  {
    assert id in s.LoopOf(k).Live();
    SetTickKeeps(s, k, id, History);
    SetTickKeeps(s, k, id, Verdict(false));
  }

  lemma ReceiveHistoryKeeps(s: State, k: LoopKind, id: nat, history: Option<seq<string>>, reconnects: bool)
    requires Inv(s) && id in s.LoopOf(k).ticks
    ensures Inv(ReceiveHistory(s, k, id, history, reconnects).st)
  {
    hide FireTerminal, FireTerminalOrReconnect, FindSuccessor;
    assert id in s.LoopOf(k).Live();
    SetTickKeeps(s, k, id, Verdict(true));
    var o := Out(SetTick(s, k, id, Verdict(true)), []);
    ReconnectKeeps(o, ContinuedAsNew, FindSuccessor(history), reconnects);
    TerminalKeeps(o, Destroy);
  }

  lemma ReturnFromTickKeeps(s: State, k: LoopKind, id: nat, handled: bool)
    requires Inv(s) && id in s.LoopOf(k).ticks
    ensures Inv(ReturnFromTick(s, k, id, handled).st)
  {
    assert id in s.LoopOf(k).Live();
    var l := s.LoopOf(k);
    var t := if handled then s else s.WithLoop(k, l.(backoff := NextTickBackoff(l.backoff, s.config.heartbeatMs)));
    FinishKeeps(Out(t, []), k, id);
  }

  /** A routine moves on to another await. */
  lemma MoveKeeps(s: State, r: nat, pc: Routine)
    requires Inv(s) && r in s.routines && !pc.LoopSleeping? && !pc.LoopAborted?
    ensures Inv(SetRoutine(s, r, pc))
  {
    assert SetRoutine(s, r, pc).routines.Keys == s.routines.Keys;
  }

  lemma LoopHeadKeeps(s: State, r: nat, v: LoopVars)
    requires Inv(s) && r in s.routines
    ensures Inv(LoopHead(Out(s, []), r, v).st)
  {
    GiveKeeps(Out(s, []), r, ReconnectExhausted);
    if !s.stopped && s.now < v.deadline {
      var t := LoopHead(Out(s, []), r, v).st;
      assert t.routines.Keys == s.routines.Keys;
    }
  }

  lemma ResumeKeeps(s: State, r: nat)
    requires Inv(s) && r in s.routines
    ensures Inv(Resume(Out(s, []), r).st)
  {
    hide ArmBoth, Body;
    RoutineIsStarted(s, r);
    EndKeeps(Out(s, []), r);
    ResumeArms(s, r);
    if s.stopped {
      StoppedIsAlive(EndRoutine(Out(s, []), r).st);
    } else {
      BothKeep(EndRoutine(Out(s, []), r).st);
    }
  }

  lemma RoutineIsStarted(s: State, r: nat)
    requires Inv(s) && r in s.routines
    ensures s.start == Started && Body(s)
  {
  }

  lemma StoppedIsAlive(s: State)
    requires Body(s) && s.stopped
    ensures Inv(s)
  {
  }

  lemma ResumeArms(s: State, r: nat)
    requires r in s.routines
    ensures var t := EndRoutine(Out(s, []), r).st; Resume(Out(s, []), r).st == if s.stopped then t else ArmBoth(t)
    ensures EndRoutine(Out(s, []), r).st.stopped == s.stopped && EndRoutine(Out(s, []), r).st.start == s.start
  {
  }

  lemma ReturnFromHookKeeps(s: State, r: nat)
    requires Inv(s) && r in s.routines
    ensures Inv(ReturnFromHook(s, r, s.routines[r]).st)
  {
    hide LoopHead, Resume, SetRoutine, Repoint;
    match s.routines[r]
    case RebindStarting(successor) =>
      RepointKeeps(s, r, s.token.value.(runId := successor), RebindResuming);
    case LoopStarting(oldId) =>
      LoopHeadKeeps(s, r, LoopVars(oldId, s.now + s.config.budgetMs, s.config.baseMs, 0));
    case _ =>
      ResumeKeeps(s, r);
  }

  lemma RetryKeeps(s: State, r: nat, v: LoopVars)
    requires Inv(s) && r in s.routines
    ensures Inv(Retry(Out(s, []), r, v).st)
  {
    LoopHeadKeeps(s, r, v.(backoff := NextReconnectBackoff(s.config, v.backoff)));
  }

  lemma WakeKeeps(s: State, r: nat)
    requires Inv(s) && r in s.routines
    ensures Inv(Wake(s, r, s.routines[r]).st)
  {
    EndKeeps(Out(s, []), r);
    if s.routines[r].LoopWoken? {
      MoveKeeps(s, r, LoopPrecheck(s.routines[r].vars));
    }
  }

  lemma ReceivePrecheckKeeps(s: State, r: nat, v: LoopVars, info: Info)
    requires Inv(s) && r in s.routines
    ensures Inv(ReceivePrecheck(s, r, v, info).st)
  {
    GiveKeeps(Out(s, []), r, Destroy);
    GiveKeeps(Out(s, []), r, Superseded);
    RetryKeeps(s, r, v);
    MoveKeeps(s, r, LoopClaiming(v));
  }

  lemma FailPrecheckKeeps(s: State, r: nat, v: LoopVars, terminal: bool)
    requires Inv(s) && r in s.routines
    ensures Inv(FailPrecheck(s, r, v, terminal).st)
  {
    MoveKeeps(s, r, LoopDescribe(v));
    RetryKeeps(s, r, v);
  }

  /** `describe` settled, or the claim was refused: give up or try again. */
  lemma SettleKeeps(s: State, r: nat, v: LoopVars)
    requires Inv(s) && r in s.routines
    ensures Inv(Give(Out(s, []), r, Destroy).st) && Inv(Retry(Out(s, []), r, v).st)
  {
    GiveKeeps(Out(s, []), r, Destroy);
    RetryKeeps(s, r, v);
  }

  lemma RoutineStepKeepsInv(s: State, e: Event)
    requires Inv(s) && Enabled(s, e)
    requires e.HookReturns? || e.Wakes? || e.PrecheckInfo? || e.PrecheckFails? || e.DescribeReply?
          || e.ReclaimGranted? || e.ReclaimFails? || e.Crashes?
    ensures Inv(Step(s, e).st)
  {
    hide ReturnFromHook, Wake, ReceivePrecheck, FailPrecheck, Give, Retry, SetRoutine, Repoint, Inv;
    match e
    case HookReturns(r) => ReturnFromHookKeeps(s, r);
    case Wakes(r) => WakeKeeps(s, r);
    case PrecheckInfo(r, info) => ReceivePrecheckKeeps(s, r, s.routines[r].vars, info);
    case PrecheckFails(r, terminal) => FailPrecheckKeeps(s, r, s.routines[r].vars, terminal);
    case DescribeReply(r, _) => SettleKeeps(s, r, s.routines[r].vars);
    case ReclaimGranted(r, token) => RepointKeeps(s, r, token, LoopResuming(s.routines[r].vars));
    case ReclaimFails(r, _) => SettleKeeps(s, r, s.routines[r].vars);
    case Crashes(r) => CrashKeeps(s, r);
  }

  lemma RepointKeeps(s: State, r: nat, token: Token, pc: Routine)
    requires Inv(s) && r in s.routines && !pc.LoopSleeping? && !pc.LoopAborted?
    ensures Inv(SetRoutine(Repoint(s, token), r, pc))
  {
    hide SetRoutine;
    MoveKeeps(Repoint(s, token), r, pc);
  }

  lemma CrashKeeps(s: State, r: nat)
    requires Inv(s) && r in s.routines
    ensures Inv(FireTerminal(EndRoutine(Out(s, []), r), ReconnectExhausted).st)
  {
    hide FireTerminal, EndRoutine;
    EndKeeps(Out(s, []), r);
    TerminalKeeps(EndRoutine(Out(s, []), r), ReconnectExhausted);
  }

  lemma StopCallKeeps(s: State, reason: Reason, graceful: bool)
    requires Inv(s)
    ensures Inv(Stop(Out(s, []), reason, graceful).st)
  {
    hide Stop;
    StopKeeps(Out(s, []), reason, graceful);
  }

  lemma PlainStepKeepsInv(s: State, e: Event)
    requires Inv(s) && Enabled(s, e)
    requires e.CallStart? || e == StartReply(None) || e.SleepElapses? || e.SubclassSleeps? || e.ClockAdvances?
    ensures Inv(Step(s, e).st)
  {
    hide FireTimer, AcceptHeartbeat, ReceiveInfo, FailTick, ReceiveHistory, ReturnFromTick, ReturnFromHook, Wake,
         ReceivePrecheck, FailPrecheck, ReceiveDescribe, FailReclaim, Stop, ArmBoth, FireTerminal, EndRoutine, Repoint;
  }

  lemma StepKeepsInv(s: State, e: Event)
    requires Inv(s)
    ensures Inv(Step(s, e).st)
  {
    hide FireTimer, AcceptHeartbeat, ReceiveInfo, FailTick, ReceiveHistory, ReturnFromTick, ReturnFromHook, ElapseSleep,
         Wake, ReceivePrecheck, FailPrecheck, ReceiveDescribe, FailReclaim, Stop, ArmBoth, FireTerminal, EndRoutine,
         SetRoutine, Repoint, Inv;
    if Enabled(s, e) {
      match e
      case CallStart | SleepElapses(_) | SubclassSleeps(_) | ClockAdvances(_) => PlainStepKeepsInv(s, e);
      case StartReply(reply) => if reply.Some? { StartReplyKeeps(s, reply.value); } else { PlainStepKeepsInv(s, e); }
      case CallStop(reason, graceful) => StopCallKeeps(s, reason, graceful);
      case TimerFires(k, id) => FireTimerKeeps(s, k, id);
      case HeartbeatAccepted(id) => AcceptHeartbeatKeeps(s, id);
      case WatcherInfo(id, info, onPhase, onRevoked, reconnects) =>
        ReceiveInfoKeeps(s, id, info, onPhase, onRevoked, reconnects);
      case TickFails(k, id, terminal) => FailTickKeeps(s, k, id, terminal);
      case HistoryReply(k, id, history, reconnects) => ReceiveHistoryKeeps(s, k, id, history, reconnects);
      case TickReturns(k, id) => ReturnFromTickKeeps(s, k, id, s.LoopOf(k).ticks[id].handled);
      case _ => RoutineStepKeepsInv(s, e);
    }
  }

  lemma {:induction false} RunKeepsInv(c: Config, es: seq<Event>)
    ensures Inv(Run(c, es))
  {
    if es != [] {
      RunKeepsInv(c, es[..|es| - 1]);
      StepKeepsInv(Run(c, es[..|es| - 1]), es[|es| - 1]);
    }
  }
}
