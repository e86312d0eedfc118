/** What one event does to the ticks in flight of each loop. */
module LifecycleTicks {
  import opened Options
  import opened Lifecycle

  /** A tick that begins now goes no further than its guards. */
  predicate Held(s: State) {
    s.stopped || s.terminalFired || s.reconnecting || s.pinned.None? || s.token.None?
  }

  /** The ticks of loop `k` after `e`. */
  function TicksAfter(s: State, e: Event, k: LoopKind): map<nat, TickPc> {
    var ticks := s.LoopOf(k).ticks;
    match e
    case TimerFires(j, id) => if j != k then ticks else if Held(s) then ticks - {id} else ticks[id := Rpc]
    case HeartbeatAccepted(id) => if k == Heartbeat then ticks - {id} else ticks
    case WatcherInfo(id, _, _, _, _) => if k == Watcher then ticks - {id} else ticks
    case TickFails(j, id, terminal) =>
      if j != k then ticks else ticks[id := if terminal then History else Verdict(false)]
    case HistoryReply(j, id, _, _) => if j != k then ticks else ticks[id := Verdict(true)]
    case TickReturns(j, id) => if j != k then ticks else ticks - {id}
    case _ => ticks
  }

  lemma FinishTicks(o: Out, j: LoopKind, id: nat, k: LoopKind)
    ensures Finish(o, j, id).st.LoopOf(k).ticks == if j == k then o.st.LoopOf(k).ticks - {id} else o.st.LoopOf(k).ticks
  {
    hide Undisturbed, SameWork, SameSelf;
  }

  lemma SetTickTicks(s: State, j: LoopKind, id: nat, pc: TickPc, k: LoopKind)
    ensures SetTick(s, j, id, pc).LoopOf(k).ticks == if j == k then s.LoopOf(k).ticks[id := pc] else s.LoopOf(k).ticks
  {
  }

  lemma SetTickStops(s: State, k: LoopKind, id: nat, pc: TickPc)
    ensures SetTick(s, k, id, pc).stopped == s.stopped
  {
  }

  lemma TimerTicks(s: State, j: LoopKind, id: nat, k: LoopKind)
    ensures FireTimer(s, j, id).st.LoopOf(k).ticks == TicksAfter(s, TimerFires(j, id), k)
  {
    hide Finish, SetTick;
    var t := s.WithLoop(j, s.LoopOf(j).(armed := s.LoopOf(j).armed - {id}));
    FinishTicks(Out(t, []), j, id, k);
    SetTickTicks(t, j, id, Rpc, k);
  }

  lemma AcceptTicks(s: State, id: nat, k: LoopKind)
    ensures AcceptHeartbeat(s, id).st.LoopOf(k).ticks == TicksAfter(s, HeartbeatAccepted(id), k)
  {
    hide Finish;
    FinishTicks(Out(s.(hb := s.hb.(backoff := 0.0)), []), Heartbeat, id, k);
  }

  lemma ReturnTicks(s: State, j: LoopKind, id: nat, handled: bool, k: LoopKind)
    ensures ReturnFromTick(s, j, id, handled).st.LoopOf(k).ticks == TicksAfter(s, TickReturns(j, id), k)
  {
    hide Finish, NextTickBackoff;
    var l := s.LoopOf(j);
    FinishTicks(Out(s, []), j, id, k);
    FinishTicks(Out(s.WithLoop(j, l.(backoff := NextTickBackoff(l.backoff, s.config.heartbeatMs))), []), j, id, k);
  }

  lemma FailTicks(s: State, j: LoopKind, id: nat, terminal: bool, k: LoopKind)
    ensures FailTick(s, j, id, terminal).st.LoopOf(k).ticks == TicksAfter(s, TickFails(j, id, terminal), k)
  {
    hide SetTick;
    SetTickTicks(s, j, id, if terminal then History else Verdict(false), k);
  }

  lemma HistoryTicks(s: State, j: LoopKind, id: nat, history: Option<seq<string>>, reconnects: bool, k: LoopKind)
    ensures ReceiveHistory(s, j, id, history, reconnects).st.LoopOf(k).ticks
         == TicksAfter(s, HistoryReply(j, id, history, reconnects), k)
  {
    hide SetTick, FireTerminal, FireTerminalOrReconnect, FindSuccessor;
    SetTickTicks(s, j, id, Verdict(true), k);
    var o := Out(SetTick(s, j, id, Verdict(true)), []);
    assert SameWork(o.st, FireTerminal(o, Destroy).st);
    assert SameWork(o.st, FireTerminalOrReconnect(o, ContinuedAsNew, FindSuccessor(history), reconnects).st);
  }

  lemma InfoTicks(s: State, id: nat, info: Info, onPhase: ListenerCall, onRevoked: ListenerCall, reconnects: bool,
      k: LoopKind)
    ensures ReceiveInfo(s, id, info, onPhase, onRevoked, reconnects).st.LoopOf(k).ticks
         == TicksAfter(s, WatcherInfo(id, info, onPhase, onRevoked, reconnects), k)
  {
    hide NotifyPhase, JudgeInfo, Finish;
    var n := NotifyPhase(s.(pw := s.pw.(backoff := 0.0)), info, onPhase);
    FinishTicks(JudgeInfo(n, info, onRevoked, reconnects), Watcher, id, k);
  }

  /** Events that are not a tick's move no tick and, but for a failed pre-check, start no `describe`. */
  lemma OthersMoveNoTick(s: State, e: Event)
    requires !IsTickEvent(e) && !(e.PrecheckFails? && e.terminal)
    ensures SameWork(s, Step(s, e).st)
  {
    hide FireTerminal, Give, LoopHead, Resume, Stop, ArmBoth, ElapseSleep;
    assert true;
  }

  lemma PrecheckAsksDescribe(s: State, e: Event)
    requires e.PrecheckFails? && e.terminal
    ensures Step(s, e).st.hb == s.hb && Step(s, e).st.pw == s.pw
    ensures forall r | AwaitsDescribe(Step(s, e).st, r) :: AwaitsDescribe(s, r) || (r == e.routine && Enabled(s, e))
  {
  }

  lemma DisabledStays(s: State, e: Event)
    requires !Enabled(s, e)
    ensures Step(s, e) == Out(s, [])
  {
  }

  /** The ticks of both loops after any event that something waits for. */
  lemma TicksAre(s: State, e: Event, k: LoopKind)
    requires Enabled(s, e)
    ensures Step(s, e).st.LoopOf(k).ticks == TicksAfter(s, e, k)
  {
    hide FireTimer, AcceptHeartbeat, ReceiveInfo, FailTick, ReceiveHistory, ReturnFromTick, ReturnFromHook,
         ElapseSleep, Wake, ReceivePrecheck, FailPrecheck, ReceiveDescribe, FailReclaim, Stop, ArmBoth, FireTerminal,
         EndRoutine, SetRoutine, Repoint, TicksAfter;
    match e
    case TimerFires(j, id) => TimerTicks(s, j, id, k);
    case HeartbeatAccepted(id) => AcceptTicks(s, id, k);
    case WatcherInfo(id, info, onPhase, onRevoked, reconnects) =>
      InfoTicks(s, id, info, onPhase, onRevoked, reconnects, k);
    case TickFails(j, id, terminal) => FailTicks(s, j, id, terminal, k);
    case HistoryReply(j, id, history, reconnects) => HistoryTicks(s, j, id, history, reconnects, k);
    case TickReturns(j, id) => ReturnTicks(s, j, id, s.LoopOf(j).ticks[id].handled, k);
    case _ => OtherTicks(s, e, k);
  }

  lemma OtherTicks(s: State, e: Event, k: LoopKind)
    requires !IsTickEvent(e)
    ensures Step(s, e).st.LoopOf(k).ticks == TicksAfter(s, e, k)
  {
    hide Step;
    if e.PrecheckFails? && e.terminal {
      PrecheckAsksDescribe(s, e);
    } else {
      OthersMoveNoTick(s, e);
    }
  }

  /** Tick `id` of loop `k` is suspended at `pc`. */
  ghost predicate Waits(s: State, k: LoopKind, id: nat, pc: TickPc) {
    id in s.LoopOf(k).ticks && s.LoopOf(k).ticks[id] == pc
  }

  /** A tick comes to wait for its RPC when its timer fires, and for history when that RPC fails for good. */
  lemma WaitBegins(s: State, e: Event, k: LoopKind, id: nat, pc: TickPc)
    requires !Waits(s, k, id, pc) && Waits(Step(s, e).st, k, id, pc)
    ensures Enabled(s, e)
    ensures pc.Rpc? ==> e == TimerFires(k, id) && !Held(s)
    ensures pc.History? ==> e == TickFails(k, id, true)
  {
    hide Step;
    if Enabled(s, e) {
      TicksAre(s, e, k);
    } else {
      DisabledStays(s, e);
    }
  }
}
