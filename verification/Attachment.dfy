/** The class of `src/adapters/base.ts` in its own form: fields that methods assign, one method per private helper and
  one per segment between two awaits.  `Handle` gives an event to the method it resumes and is proved to do exactly what
  `Step` does, and `Drive` hands an adapter any sequence of events: what it ensures are the whole-run theorems, said of
  the fields and of everything the adapter did.
 */
module Attachment {
  import opened Options
  import opened Lifecycle
  import opened LifecycleHistory
  import opened LifecycleInvariants
  import opened LifecycleLoops
  import opened LifecycleTerminal
  import opened LifecycleTicks

  /** What the event loop holds for the adapter: the clock, the armed timers, and the routines suspended at an await. */
  datatype EventLoop = EventLoop(
    now: real,
    nextId: nat,
    start: StartPc,
    heartbeats: map<nat, real>,
    watchers: map<nat, real>,
    heartbeatTicks: map<nat, TickPc>,
    watcherTicks: map<nat, TickPc>,
    routines: map<nat, Routine>)

  /** The routines after the sleeps in `aborted` were rejected. */
  function RejectAll(routines: map<nat, Routine>, aborted: set<nat>): map<nat, Routine> {
    map r | r in routines :: Rejected(routines[r], aborted)
  }

  function Rejected(r: Routine, aborted: set<nat>): Routine {
    if r.LoopSleeping? && r.sleeper in aborted then LoopAborted(r.vars) else r
  }

  lemma RejectOneMore(routines: map<nat, Routine>, aborted: set<nat>, abort: nat)
    ensures RejectAll(RejectAll(routines, aborted), {abort}) == RejectAll(routines, aborted + {abort})
  {
  }

  lemma RejectNone(routines: map<nat, Routine>)
    ensures RejectAll(routines, {}) == routines
  {
  }

  /** The paused state in which a recovery is decided. */
  function PausedFor(s: State): State {
    s.(reconnecting := true, hb := Disarm(s.hb), pw := Disarm(s.pw))
  }

  lemma ReconnectCases(o: Out, reason: Reason, successor: Option<string>, reconnects: bool)
    ensures var s := PausedFor(o.st);
      FireTerminalOrReconnect(o, reason, successor, reconnects) ==
        if o.st.stopped || o.st.terminalFired || o.st.reconnecting then o
        else if !reconnects then FireTerminal(o, reason)
        else if s.pinned.None? || s.token.None? then
          var f := FireTerminal(o.(st := s), ReconnectExhausted);
          Out(f.st.(reconnecting := false), f.fx)
        else if reason == ContinuedAsNew && successor.Some? then
          Out(AddRoutine(s, RebindStarting(successor.value)), o.fx)
        else Out(AddRoutine(s, LoopStarting(s.token.value.attachmentId)), o.fx)
  {
    hide FireTerminal, AddRoutine, Disarm, Undisturbed, SameWork, SameSelf;
  }

  lemma AbortRejectsAll(s: State)
    ensures AbortSleepers(s) == s.(sleepers := map[], routines := RejectAll(s.routines, s.sleepers.Keys))
  {
  }

  class BaseAttachment {
    const config: Config

    // the fields of the class
    var token: Option<Token>
    var pinnedHandle: Option<string>
    var heartbeatTimer: Option<nat>
    var phaseWatcherTimer: Option<nat>
    var heartbeatBackoff: real
    var phaseBackoff: real
    var stopped: bool
    var terminalFired: bool
    var knownPhase: Option<Phase>
    var reconnecting: bool
    var sleepAborters: map<nat, real>

    var pending: EventLoop

    // what the present segment has done so far
    var effects: seq<Effect>

    function View(): State
      reads this
    {
      State(config, pending.now, pending.nextId, pending.start, stopped, terminalFired, reconnecting,
            token, pinnedHandle, knownPhase,
            Loop(pending.heartbeats, heartbeatTimer, pending.heartbeatTicks, heartbeatBackoff),
            Loop(pending.watchers, phaseWatcherTimer, pending.watcherTicks, phaseBackoff),
            sleepAborters, pending.routines)
    }

    /** The state and the effects of the segment so far. */
    function Progress(): Out
      reads this
    {
      Out(View(), effects)
    }

    constructor (c: Config)
      ensures config == c && View() == Init(c) && effects == []
    {
      config := c;
      token, pinnedHandle, knownPhase := None, None, None;
      heartbeatTimer, phaseWatcherTimer, heartbeatBackoff, phaseBackoff := None, None, 0.0, 0.0;
      stopped, terminalFired, reconnecting := false, false, false;
      pending := EventLoop(0.0, 0, NotCalled, map[], map[], map[], map[], map[]);
      sleepAborters, effects := map[], [];
    }

    method Emit(x: Effect)
      modifies this`effects
      ensures effects == old(effects) + [x]
    {
      effects := effects + [x];
    }

    // ----- timers

    method ScheduleHeartbeat()
      modifies this`heartbeatTimer, this`pending
      ensures View() == Arm(old(View()), Heartbeat)
    {
      var delay := if heartbeatBackoff != 0.0 then heartbeatBackoff else config.heartbeatMs;
      heartbeatTimer := Some(pending.nextId);
      pending :=
        pending.(heartbeats := pending.heartbeats[pending.nextId := pending.now + delay], nextId := pending.nextId + 1);
    }

    method SchedulePhaseWatcher()
      modifies this`phaseWatcherTimer, this`pending
      ensures View() == Arm(old(View()), Watcher)
    {
      var base := config.heartbeatMs * 5.0;
      var delay := if phaseBackoff != 0.0 then phaseBackoff else base;
      phaseWatcherTimer := Some(pending.nextId);
      pending :=
        pending.(watchers := pending.watchers[pending.nextId := pending.now + delay], nextId := pending.nextId + 1);
    }

    method ScheduleBoth()
      modifies this`heartbeatTimer, this`phaseWatcherTimer, this`pending
      ensures View() == ArmBoth(old(View()))
    {
      hide Arm, Undisturbed, SameWork, SameSelf;
      ScheduleHeartbeat();
      SchedulePhaseWatcher();
    }

    method ClearTimers()
      modifies this`heartbeatTimer, this`phaseWatcherTimer, this`pending
      ensures View() == old(View()).(hb := Disarm(old(View()).hb), pw := Disarm(old(View()).pw))
    {
      if heartbeatTimer.Some? {
        pending := pending.(heartbeats := pending.heartbeats - {heartbeatTimer.value});
        heartbeatTimer := None;
      }
      if phaseWatcherTimer.Some? {
        pending := pending.(watchers := pending.watchers - {phaseWatcherTimer.value});
        phaseWatcherTimer := None;
      }
    }

    // ----- teardown

    /** Rejects every pending sleep, one aborter at a time. */
    method AbortPending()
      modifies this`sleepAborters, this`pending
      ensures View() == AbortSleepers(old(View()))
    {
      hide AbortSleepers, RejectAll;
      var aborters := sleepAborters.Keys;
      ghost var was, done: set<nat> := View(), {};
      sleepAborters := map[];
      RejectNone(was.routines);
      while aborters != {}
        invariant aborters + done == was.sleepers.Keys
        invariant View() == was.(sleepers := map[], routines := pending.routines)
        invariant pending.routines == RejectAll(was.routines, done)
        decreases aborters
      {
        var abort :| abort in aborters;
        RejectOneMore(was.routines, done, abort);
        aborters, done := aborters - {abort}, done + {abort};
        pending := pending.(routines := RejectAll(pending.routines, {abort}));
      }
      assert done == was.sleepers.Keys;
      AbortRejectsAll(was);
    }

    method StopV2Lifecycle(reason: Reason, graceful: bool)
      modifies this
      ensures Progress() == Stop(old(Progress()), reason, graceful)
    {
      hide Undisturbed, SameWork, SameSelf;
      if stopped { return; }
      stopped := true;
      ClearTimers();
      AbortPending();
      if graceful && pinnedHandle.Some? && token.Some? {
        Emit(ExitedSent(token.value.attachmentId, reason));
      }
    }

    method FireTerminalHook(reason: Reason)
      modifies this
      ensures Progress() == FireTerminal(old(Progress()), reason)
    {
      hide Undisturbed, SameWork, SameSelf;
      if terminalFired { return; }
      terminalFired := true;
      stopped := true;
      ClearTimers();
      AbortPending();
      Emit(TerminalNotified(reason));
    }

    method CallListener(call: ListenerCall)
      modifies this
      ensures Progress() == Listen(old(Progress()), call)
    {
      hide Undisturbed, SameWork, SameSelf;
      match call
      case Quiet =>
      case Stops(reason, graceful) => StopV2Lifecycle(reason, graceful);
    }

    method EndRecovery(r: nat)
      modifies this`pending, this`reconnecting
      ensures Progress() == EndRoutine(old(Progress()), r)
    {
      hide Undisturbed, SameWork, SameSelf;
      pending := pending.(routines := pending.routines - {r});
      reconnecting := false;
    }

    method GiveUp(r: nat, reason: Reason)
      modifies this
      ensures Progress() == Give(old(Progress()), r, reason)
    {
      hide Undisturbed, SameWork, SameSelf;
      FireTerminalHook(reason);
      EndRecovery(r);
    }

    /** Starts a routine without awaiting it. */
    method Launch(r: Routine)
      modifies this`pending
      ensures View() == AddRoutine(old(View()), r)
    {
      pending := pending.(routines := pending.routines[pending.nextId := r], nextId := pending.nextId + 1);
    }

    /** The routine goes on to its next await. */
    method AwaitAt(r: nat, pc: Routine)
      modifies this`pending
      ensures View() == SetRoutine(old(View()), r, pc)
    {
      pending := pending.(routines := pending.routines[r := pc]);
    }

    method FireOrReconnect(reason: Reason, successor: Option<string>, reconnects: bool)
      modifies this
      ensures Progress() == FireTerminalOrReconnect(old(Progress()), reason, successor, reconnects)
    {
      ReconnectCases(Progress(), reason, successor, reconnects);
      hide FireTerminalOrReconnect, FireTerminal, AddRoutine, Disarm, Undisturbed, SameWork, SameSelf;
      if stopped || terminalFired || reconnecting { return; }
      if !reconnects {
        FireTerminalHook(reason);
        return;
      }
      ghost var was := View();
      reconnecting := true;
      ClearTimers();
      assert View() == PausedFor(was);
      if pinnedHandle.None? || token.None? {
        FireTerminalHook(ReconnectExhausted);
        reconnecting := false;
      } else if reason == ContinuedAsNew && successor.Some? {
        Launch(RebindStarting(successor.value));
      } else {
        Launch(LoopStarting(token.value.attachmentId));
      }
    }

    // ----- start and stop

    method CallStartV2()
      requires Enabled(View(), CallStart)
      modifies this
      ensures Progress() == Step(old(View()), CallStart)
    {
      hide Undisturbed, SameWork, SameSelf;
      pending, effects := pending.(start := Claiming), [InitialClaimSent];
    }

    method ReceiveStartReply(reply: Option<Token>)
      requires Enabled(View(), StartReply(reply))
      modifies this
      ensures Progress() == Step(old(View()), StartReply(reply))
    {
      hide ArmBoth, Undisturbed, SameWork, SameSelf, FireTimer, AcceptHeartbeat, ReceiveInfo, FailTick,
           ReceiveHistory, ReturnFromTick, ReturnFromHook, ElapseSleep, Wake, ReceivePrecheck, FailPrecheck,
           ReceiveDescribe, FailReclaim, Stop, FireTerminal, EndRoutine, SetRoutine, Repoint;
      effects := [];
      if reply.None? {
        pending := pending.(start := Failed);
        return;
      }
      pending := pending.(start := Started);
      token, pinnedHandle := reply, Some(reply.value.runId);
      Emit(Claimed(reply.value));
      ScheduleBoth();
    }

    method StopFromOutside(reason: Reason, graceful: bool)
      modifies this
      ensures Progress() == Step(old(View()), CallStop(reason, graceful))
    {
      hide Undisturbed, SameWork, SameSelf;
      effects := [];
      StopV2Lifecycle(reason, graceful);
    }

    // ----- the heartbeat tick

    method FinishHeartbeat(id: nat)
      modifies this
      ensures Progress() == Finish(old(Progress()), Heartbeat, id)
    {
      hide Undisturbed, SameWork, SameSelf;
      pending := pending.(heartbeatTicks := pending.heartbeatTicks - {id});
      if !stopped && !reconnecting && !terminalFired { ScheduleHeartbeat(); }
    }

    method TickHeartbeat(id: nat)
      requires Enabled(View(), TimerFires(Heartbeat, id))
      modifies this
      ensures Progress() == Step(old(View()), TimerFires(Heartbeat, id))
    {
      hide Undisturbed, SameWork, SameSelf;
      effects := [];
      pending := pending.(heartbeats := pending.heartbeats - {id});
      if stopped || terminalFired || reconnecting || pinnedHandle.None? || token.None? {
        FinishHeartbeat(id);
        return;
      }
      pending := pending.(heartbeatTicks := pending.heartbeatTicks[id := Rpc]);
      Emit(HeartbeatSent(token.value.attachmentId, pinnedHandle.value));
    }

    method HeartbeatDelivered(id: nat)
      requires Enabled(View(), HeartbeatAccepted(id))
      modifies this
      ensures Progress() == Step(old(View()), HeartbeatAccepted(id))
    {
      hide Undisturbed, SameWork, SameSelf;
      effects := [];
      heartbeatBackoff := 0.0;
      FinishHeartbeat(id);
    }

    method HeartbeatFailed(id: nat, terminal: bool)
      requires Enabled(View(), TickFails(Heartbeat, id, terminal))
      modifies this
      ensures Progress() == Step(old(View()), TickFails(Heartbeat, id, terminal))
    {
      hide Undisturbed, SameWork, SameSelf;
      effects := [];
      if terminal {
        pending := pending.(heartbeatTicks := pending.heartbeatTicks[id := History]);
        if pinnedHandle.Some? { Emit(HistorySent(pinnedHandle.value)); }
      } else {
        pending := pending.(heartbeatTicks := pending.heartbeatTicks[id := Verdict(false)]);
      }
    }

    /** `findCanSuccessorRunId`, once the history is there. */
    method FindCanSuccessor(history: Option<seq<string>>) returns (successor: Option<string>)
      ensures successor == FindSuccessor(history)
    {
      if history.None? { return None; }
      var events := history.value;
      var i := 0;
      while i < |events|
        invariant 0 <= i <= |events|
        invariant FirstNonEmpty(events) == FirstNonEmpty(events[i..])
      {
        if events[i] != "" { return Some(events[i]); }
        assert events[i..][1..] == events[i + 1..];
        i := i + 1;
      }
      return None;
    }

    method HandleRunEnd(history: Option<seq<string>>, reconnects: bool)
      modifies this
      ensures Progress() == if FindSuccessor(history).Some?
                            then FireTerminalOrReconnect(old(Progress()), ContinuedAsNew,
                                                         FindSuccessor(history), reconnects)
                            else FireTerminal(old(Progress()), Destroy)
    {
      hide Undisturbed, SameWork, SameSelf;
      var successor := FindCanSuccessor(history);
      if successor.Some? {
        FireOrReconnect(ContinuedAsNew, successor, reconnects);
      } else {
        FireTerminalHook(Destroy);
      }
    }

    method HeartbeatHistory(id: nat, history: Option<seq<string>>, reconnects: bool)
      requires Enabled(View(), HistoryReply(Heartbeat, id, history, reconnects))
      modifies this
      ensures Progress() == Step(old(View()), HistoryReply(Heartbeat, id, history, reconnects))
    {
      hide FireTerminal, FireTerminalOrReconnect, Undisturbed, SameWork, SameSelf;
      effects := [];
      pending := pending.(heartbeatTicks := pending.heartbeatTicks[id := Verdict(true)]);
      HandleRunEnd(history, reconnects);
    }

    method HeartbeatReturns(id: nat)
      requires Enabled(View(), TickReturns(Heartbeat, id))
      modifies this
      ensures Progress() == Step(old(View()), TickReturns(Heartbeat, id))
    {
      hide Undisturbed, SameWork, SameSelf;
      effects := [];
      if !pending.heartbeatTicks[id].handled {
        heartbeatBackoff :=
          Min(if heartbeatBackoff != 0.0 then heartbeatBackoff * LOOP_BACKOFF_FACTOR else config.heartbeatMs,
              LOOP_BACKOFF_MAX_MS);
      }
      FinishHeartbeat(id);
    }

    // ----- the phase-watcher tick

    method FinishWatcher(id: nat)
      modifies this
      ensures Progress() == Finish(old(Progress()), Watcher, id)
    {
      hide Undisturbed, SameWork, SameSelf;
      pending := pending.(watcherTicks := pending.watcherTicks - {id});
      if !stopped && !reconnecting && !terminalFired { SchedulePhaseWatcher(); }
    }

    method TickPhaseWatcher(id: nat)
      requires Enabled(View(), TimerFires(Watcher, id))
      modifies this
      ensures Progress() == Step(old(View()), TimerFires(Watcher, id))
    {
      hide Undisturbed, SameWork, SameSelf;
      effects := [];
      pending := pending.(watchers := pending.watchers - {id});
      if stopped || terminalFired || reconnecting || pinnedHandle.None? || token.None? {
        FinishWatcher(id);
        return;
      }
      pending := pending.(watcherTicks := pending.watcherTicks[id := Rpc]);
      Emit(QuerySent(pinnedHandle.value));
    }

    method JudgeReply(info: Info, onRevoked: ListenerCall, reconnects: bool)
      modifies this
      ensures Progress() == JudgeInfo(old(Progress()), info, onRevoked, reconnects)
    {
      hide Undisturbed, SameWork, SameSelf;
      if info.holder.Some? && token.Some? && info.holder.value != token.value.attachmentId {
        Emit(RevokedNotified(Superseded));
        CallListener(onRevoked);
        FireOrReconnect(Superseded, None, reconnects);
      } else if info.phase == Detached && info.holder.None? {
        Emit(RevokedNotified(HeartbeatTimeout));
        CallListener(onRevoked);
        FireOrReconnect(HeartbeatTimeout, None, reconnects);
      } else if info.phase == Gone {
        FireTerminalHook(Destroy);
      }
    }

    method TellPhase(info: Info, onPhase: ListenerCall)
      requires effects == []
      modifies this
      ensures Progress() == NotifyPhase(old(View()), info, onPhase)
    {
      hide Undisturbed, SameWork, SameSelf;
      if knownPhase != Some(info.phase) {
        knownPhase := Some(info.phase);
        Emit(PhaseNotified(info.phase));
        CallListener(onPhase);
      }
    }

    method WatcherReply(id: nat, info: Info, onPhase: ListenerCall, onRevoked: ListenerCall, reconnects: bool)
      requires Enabled(View(), WatcherInfo(id, info, onPhase, onRevoked, reconnects))
      modifies this
      ensures Progress() == Step(old(View()), WatcherInfo(id, info, onPhase, onRevoked, reconnects))
    {
      hide NotifyPhase, JudgeInfo, Finish, Undisturbed, SameWork, SameSelf;
      effects := [];
      phaseBackoff := 0.0;
      TellPhase(info, onPhase);
      JudgeReply(info, onRevoked, reconnects);
      FinishWatcher(id);
    }

    method WatcherFailed(id: nat, terminal: bool)
      requires Enabled(View(), TickFails(Watcher, id, terminal))
      modifies this
      ensures Progress() == Step(old(View()), TickFails(Watcher, id, terminal))
    {
      hide Undisturbed, SameWork, SameSelf;
      effects := [];
      if terminal {
        pending := pending.(watcherTicks := pending.watcherTicks[id := History]);
        if pinnedHandle.Some? { Emit(HistorySent(pinnedHandle.value)); }
      } else {
        pending := pending.(watcherTicks := pending.watcherTicks[id := Verdict(false)]);
      }
    }

    method WatcherHistory(id: nat, history: Option<seq<string>>, reconnects: bool)
      requires Enabled(View(), HistoryReply(Watcher, id, history, reconnects))
      modifies this
      ensures Progress() == Step(old(View()), HistoryReply(Watcher, id, history, reconnects))
    {
      hide FireTerminal, FireTerminalOrReconnect, Undisturbed, SameWork, SameSelf;
      effects := [];
      pending := pending.(watcherTicks := pending.watcherTicks[id := Verdict(true)]);
      HandleRunEnd(history, reconnects);
    }

    method WatcherReturns(id: nat)
      requires Enabled(View(), TickReturns(Watcher, id))
      modifies this
      ensures Progress() == Step(old(View()), TickReturns(Watcher, id))
    {
      hide Undisturbed, SameWork, SameSelf;
      effects := [];
      if !pending.watcherTicks[id].handled {
        phaseBackoff := Min(if phaseBackoff != 0.0 then phaseBackoff * LOOP_BACKOFF_FACTOR else config.heartbeatMs,
                            LOOP_BACKOFF_MAX_MS);
      }
      FinishWatcher(id);
    }

    // ----- the recovery routines

    method ResumeLoops(r: nat)
      modifies this
      ensures Progress() == Resume(old(Progress()), r)
    {
      hide Undisturbed, SameWork, SameSelf;
      reconnecting := false;
      if !stopped { ScheduleBoth(); }
      EndRecovery(r);
    }

    /** Points the handle at the run of `t` and forgets phase and backoffs. */
    method RepointHandle(t: Token)
      modifies this
      ensures View() == Repoint(old(View()), t) && effects == old(effects)
    {
      token, pinnedHandle := Some(t), Some(t.runId);
      knownPhase := None;
      heartbeatBackoff, phaseBackoff := 0.0, 0.0;
    }

    /** The body of `abortableSleep`. */
    method AddSleeper(ms: real)
      modifies this`sleepAborters, this`pending
      ensures View() == old(View()).(sleepers := old(sleepAborters)[old(pending.nextId) := old(pending.now) + ms],
                                     nextId := old(pending.nextId) + 1)
    {
      sleepAborters := sleepAborters[pending.nextId := pending.now + ms];
      pending := pending.(nextId := pending.nextId + 1);
    }

    /** The head of the `while` in `runReconnectLoop`. */
    method EnterAttempt(r: nat, v: LoopVars)
      modifies this
      ensures Progress() == LoopHead(old(Progress()), r, v)
    {
      hide Undisturbed, SameWork, SameSelf;
      if !stopped && pending.now < v.deadline {
        var attempt := v.attempt + 1;
        AwaitAt(r, LoopSleeping(v.(attempt := attempt), pending.nextId));
        AddSleeper(v.backoff);
      } else {
        GiveUp(r, ReconnectExhausted);
      }
    }

    method TryAgain(r: nat, v: LoopVars)
      modifies this
      ensures Progress() == Retry(old(Progress()), r, v)
    {
      hide Undisturbed, SameWork, SameSelf;
      var backoff := NextReconnectBackoff(config, v.backoff);
      EnterAttempt(r, v.(backoff := backoff));
    }

    method HookReturned(r: nat)
      requires Enabled(View(), HookReturns(r))
      modifies this
      ensures Progress() == Step(old(View()), HookReturns(r))
    {
      hide LoopHead, Resume, Undisturbed, SameWork, SameSelf;
      effects := [];
      assert Step(old(View()), HookReturns(r)) == ReturnFromHook(old(View()), r, pending.routines[r]);
      if pending.routines[r].RebindStarting? {
        if token.Some? {
          var successor := pending.routines[r].successor;
          RepointHandle(token.value.(runId := successor));
          Emit(Rebound(successor));
          AwaitAt(r, RebindResuming);
        }
      } else if pending.routines[r].LoopStarting? {
        var deadline := pending.now + config.budgetMs;
        EnterAttempt(r, LoopVars(pending.routines[r].oldAttachmentId, deadline, config.baseMs, 0));
      } else {
        ResumeLoops(r);
      }
    }

    /** The timer callback of `abortableSleep`. */
    method SleepElapsed(id: nat)
      requires Enabled(View(), SleepElapses(id))
      modifies this
      ensures Progress() == Step(old(View()), SleepElapses(id))
    {
      hide Undisturbed, SameWork, SameSelf;
      effects := [];
      sleepAborters := sleepAborters - {id};
      pending := pending.(routines := map r | r in pending.routines ::
        if pending.routines[r].LoopSleeping? && pending.routines[r].sleeper == id then
          LoopWoken(pending.routines[r].vars)
        else pending.routines[r]);
    }

    method WakeUp(r: nat)
      requires Enabled(View(), Wakes(r))
      modifies this
      ensures Progress() == Step(old(View()), Wakes(r))
    {
      hide Undisturbed, SameWork, SameSelf;
      effects := [];
      if pending.routines[r].LoopAborted? || stopped {
        EndRecovery(r);
      } else {
        Emit(PrecheckSent);
        AwaitAt(r, LoopPrecheck(pending.routines[r].vars));
      }
    }

    method PrecheckReply(r: nat, info: Info)
      requires Enabled(View(), PrecheckInfo(r, info))
      modifies this
      ensures Progress() == Step(old(View()), PrecheckInfo(r, info))
    {
      hide Give, Retry, Undisturbed, SameWork, SameSelf;
      effects := [];
      var v := pending.routines[r].vars;
      if info.phase == Gone {
        GiveUp(r, Destroy);
      } else if info.holder.Some? && info.holder.value != v.oldAttachmentId {
        GiveUp(r, Superseded);
      } else if info.phase == Draining {
        TryAgain(r, v);
      } else {
        Emit(ReclaimSent);
        AwaitAt(r, LoopClaiming(v));
      }
    }

    method PrecheckFailed(r: nat, terminal: bool)
      requires Enabled(View(), PrecheckFails(r, terminal))
      modifies this
      ensures Progress() == Step(old(View()), PrecheckFails(r, terminal))
    {
      hide Undisturbed, SameWork, SameSelf, Retry;
      effects := [];
      var v := pending.routines[r].vars;
      if terminal {
        Emit(DescribeSent);
        AwaitAt(r, LoopDescribe(v));
      } else {
        TryAgain(r, v);
      }
    }

    method DescribeSettled(r: nat, running: bool)
      requires Enabled(View(), DescribeReply(r, running))
      modifies this
      ensures Progress() == Step(old(View()), DescribeReply(r, running))
    {
      hide Undisturbed, SameWork, SameSelf, Give, Retry;
      effects := [];
      if running { TryAgain(r, pending.routines[r].vars); } else { GiveUp(r, Destroy); }
    }

    method Reclaimed(r: nat, t: Token)
      requires Enabled(View(), ReclaimGranted(r, t))
      modifies this
      ensures Progress() == Step(old(View()), ReclaimGranted(r, t))
    {
      hide Repoint, Undisturbed, SameWork, SameSelf;
      effects := [];
      var v := pending.routines[r].vars;
      RepointHandle(t);
      Emit(Claimed(t));
      AwaitAt(r, LoopResuming(v));
    }

    method ReclaimFailed(r: nat, terminal: bool)
      requires Enabled(View(), ReclaimFails(r, terminal))
      modifies this
      ensures Progress() == Step(old(View()), ReclaimFails(r, terminal))
    {
      hide Undisturbed, SameWork, SameSelf, Give, Retry;
      effects := [];
      if terminal { GiveUp(r, Destroy); } else { TryAgain(r, pending.routines[r].vars); }
    }

    /** The `catch` of `fireTerminalOrReconnect`, with the `finally` before it. */
    method RecoveryCrashed(r: nat)
      requires Enabled(View(), Crashes(r))
      modifies this
      ensures Progress() == Step(old(View()), Crashes(r))
    {
      hide Undisturbed, SameWork, SameSelf, FireTimer, AcceptHeartbeat, ReceiveInfo, FailTick, ReceiveHistory,
           ReturnFromTick, ReturnFromHook, ElapseSleep, Wake, ReceivePrecheck, FailPrecheck, ReceiveDescribe,
           FailReclaim, Stop, FireTerminal, EndRoutine, SetRoutine, Repoint, ArmBoth;
      effects := [];
      EndRecovery(r);
      FireTerminalHook(ReconnectExhausted);
    }

    /** A subclass awaits `abortableSleep`. */
    method SleepAbortably(ms: real)
      modifies this
      ensures Progress() == Step(old(View()), SubclassSleeps(ms))
    {
      hide Undisturbed, SameWork, SameSelf;
      effects := [];
      if !stopped {
        AddSleeper(ms);
      }
    }

    /** Time passes. */
    method PassTime(ms: real)
      requires Enabled(View(), ClockAdvances(ms))
      modifies this
      ensures Progress() == Step(old(View()), ClockAdvances(ms))
    {
      effects := [];
      pending := pending.(now := pending.now + ms);
    }

    // ----- the event loop

    method HandleTick(e: Event)
      requires IsTickEvent(e) && Enabled(View(), e)
      modifies this
      ensures Progress() == Step(old(View()), e)
    {
      hide Step, Enabled;
      match e
      case TimerFires(k, id) => if k == Heartbeat { TickHeartbeat(id); } else { TickPhaseWatcher(id); }
      case HeartbeatAccepted(id) => HeartbeatDelivered(id);
      case WatcherInfo(id, info, onPhase, onRevoked, reconnects) =>
        WatcherReply(id, info, onPhase, onRevoked, reconnects);
      case TickFails(k, id, terminal) =>
        if k == Heartbeat { HeartbeatFailed(id, terminal); } else { WatcherFailed(id, terminal); }
      case HistoryReply(k, id, history, reconnects) =>
        if k == Heartbeat {
          HeartbeatHistory(id, history, reconnects);
        } else {
          WatcherHistory(id, history, reconnects);
        }
      case TickReturns(k, id) => if k == Heartbeat { HeartbeatReturns(id); } else { WatcherReturns(id); }
    }

    /** Whatever the event loop turns to next: a call, a timer, a reply, a return, or nothing that waits for it. */
    method Handle(e: Event)
      modifies this
      ensures Progress() == Step(old(View()), e)
    {
      hide Enabled, Step;
      if !Enabled(View(), e) {
        DisabledStays(View(), e);
        effects := [];
        return;
      }
      match e
      case CallStart => CallStartV2();
      case StartReply(reply) => ReceiveStartReply(reply);
      case CallStop(reason, graceful) => StopFromOutside(reason, graceful);
      case HookReturns(r) => HookReturned(r);
      case SleepElapses(id) => SleepElapsed(id);
      case Wakes(r) => WakeUp(r);
      case PrecheckInfo(r, info) => PrecheckReply(r, info);
      case PrecheckFails(r, terminal) => PrecheckFailed(r, terminal);
      case DescribeReply(r, running) => DescribeSettled(r, running);
      case ReclaimGranted(r, t) => Reclaimed(r, t);
      case ReclaimFails(r, terminal) => ReclaimFailed(r, terminal);
      case Crashes(r) => RecoveryCrashed(r);
      case SubclassSleeps(ms) => SleepAbortably(ms);
      case ClockAdvances(ms) => PassTime(ms);
      case _ => HandleTick(e);
    }

    // ----- what the theorems say of the fields

    /** A started adapter is stopped, or owned by one recovery, or both its loops go on. */
    ghost predicate NotOrphaned()
      reads this
    {
      pending.start == Started ==>
        || stopped
        || (reconnecting && exists r :: pending.routines.Keys == {r})
        || (pending.routines.Keys == {}
            && pending.heartbeats.Keys + pending.heartbeatTicks.Keys != {}
            && pending.watchers.Keys + pending.watcherTicks.Keys != {})
    }

    /** Token and handle are those of the last claim, moved to the run last claimed or rebound to. */
    ghost predicate Identified(es: seq<Event>)
      reads this
    {
      pending.start == Started ==>
        && LastClaim(config, es).Some? && LastRun(config, es).Some?
        && token == Some(LastClaim(config, es).value.(runId := LastRun(config, es).value))
        && pinnedHandle == LastRun(config, es)
    }

    /** Who the adapter is can be read off what it did: the last claim it told of, on the run it told of last. */
    ghost predicate Told(trace: seq<Effect>)
      reads this
    {
      if pending.start == Started then
        && ToldClaim(trace).Some? && ToldRun(trace).Some?
        && token == Some(ToldClaim(trace).value.(runId := ToldRun(trace).value))
        && pinnedHandle == ToldRun(trace)
      else token.None? && pinnedHandle.None?
    }

    /** Nothing that a stopped adapter holds keeps it awake. */
    ghost predicate Quieted()
      reads this
    {
      (terminalFired ==> stopped) && (stopped ==> sleepAborters == map[])
    }

    lemma Observes(es: seq<Event>)
      requires View() == Run(config, es)
      ensures NotOrphaned() && Identified(es) && Quieted()
    {
      hide Run, LastClaim, LastRun;
      NoOrphanedLoops(config, es);
      IdentityIsLastClaim(config, es);
      RunKeepsInv(config, es);
    }

    lemma Tells(es: seq<Event>)
      requires View() == Run(config, es)
      ensures Told(Trace(config, es))
    {
      hide Run, Trace, ToldClaim, ToldRun;
      IdentityIsTold(config, es);
    }
  }

  /**
   * A new adapter and any sequence of events: at the end its fields satisfy the invariants, its
   * effects are those of the run, terminal listeners were told at most once, and phase listeners
   * heard every change and no repetition.
   */
  method Drive(c: Config, es: seq<Event>) returns (a: BaseAttachment, trace: seq<Effect>)
    ensures fresh(a) && a.config == c && a.View() == Run(c, es) && trace == Trace(c, es)
    ensures a.NotOrphaned() && a.Identified(es) && a.Told(trace) && a.Quieted()
    ensures Disciplined(trace) && (Notifies(trace) ==> a.terminalFired) && (Exits(trace) ==> a.stopped)
    ensures Phases(trace) == Changes(Marks(c, es))
  {
    hide Step, Phases, Disciplined, Notifies, Exits;
    a := new BaseAttachment(c);
    trace := [];
    var i := 0;
    while i < |es|
      invariant 0 <= i <= |es| && fresh(a) && a.config == c
      invariant a.View() == Run(c, es[..i]) && trace == Trace(c, es[..i])
      invariant a.NotOrphaned() && a.Identified(es[..i]) && a.Quieted()
    {
      assert es[..i + 1][..i] == es[..i];
      a.Handle(es[i]);
      trace := trace + a.effects;
      i := i + 1;
      a.Observes(es[..i]);
    }
    assert es[..i] == es;
    TerminalDiscipline(c, es);
    PhasesAreStutterFree(c, es);
    a.Tells(es);
  }
}
