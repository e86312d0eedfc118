/** Whole-run theorems on what is left after a stop: no traffic starts, and the work in flight runs down to rest. */
module LifecycleQuiescence {
  import opened Options
  import opened Lifecycle
  import opened LifecycleInvariants
  import opened LifecycleRuns
  import opened LifecycleTicks

  // ----- a measure of the work that a stopped adapter still has before it

  function TickWork(pc: TickPc): nat {
    match pc
    case Rpc => 3
    case History => 2
    case Verdict(_) => 1
  }

  function RoutineWork(pc: Routine): nat {
    match pc
    case LoopPrecheck(_) => 3
    case LoopClaiming(_) => 2
    case RebindStarting(_) => 2
    case _ => 1
  }

  function LoopWork(l: Loop, id: nat): nat {
    (if id in l.armed then 1 else 0) + (if id in l.ticks then TickWork(l.ticks[id]) else 0)
  }

  /** The work hanging on one number. */
  function Work(s: State, id: nat): nat {
    LoopWork(s.hb, id) + LoopWork(s.pw, id) + (if id in s.routines then RoutineWork(s.routines[id]) else 0)
  }

  function TotalWork(s: State, n: nat): nat {
    if n == 0 then 0 else TotalWork(s, n - 1) + Work(s, n - 1)
  }

  /** A start still under way will claim and arm two timers, stopped or not. */
  function StartWork(pc: StartPc): nat {
    match pc case NotCalled => 4 case Claiming => 3 case Started => 0 case Failed => 0
  }

  function Remaining(s: State): nat {
    StartWork(s.start) + TotalWork(s, s.nextId)
  }

  ghost predicate Calmer(s: State, t: State) {
    && t.stopped && t.nextId == s.nextId && t.start == s.start
    && t.hb.armed.Keys <= s.hb.armed.Keys && t.pw.armed.Keys <= s.pw.armed.Keys
    && (forall id :: Work(t, id) <= Work(s, id))
    && (forall r :: AtPrecheck(t, r) ==> AtPrecheck(s, r))
  }

  ghost predicate AtPrecheck(s: State, r: nat) {
    r in s.routines && s.routines[r].LoopPrecheck?
  }

  lemma {:induction false} CalmerSums(s: State, t: State, n: nat)
    requires Calmer(s, t)
    ensures TotalWork(t, n) <= TotalWork(s, n)
  {
    if n > 0 {
      CalmerSums(s, t, n - 1);
      assert Work(t, n - 1) <= Work(s, n - 1);
    }
  }

  lemma {:induction false} LessSums(s: State, t: State, id: nat, n: nat)
    requires Calmer(s, t) && Work(t, id) < Work(s, id) && id < n
    ensures TotalWork(t, n) < TotalWork(s, n)
  {
    if id == n - 1 {
      CalmerSums(s, t, n - 1);
    } else {
      LessSums(s, t, id, n - 1);
      assert Work(t, n - 1) <= Work(s, n - 1);
    }
  }

  // ----- every segment of a stopped adapter

  ghost predicate Settles(s: State, t: State, id: nat) {
    Calmer(s, t) && Work(t, id) < Work(s, id)
  }

  lemma TerminalCalms(o: Out, reason: Reason)
    requires Body(o.st) && o.st.stopped
    ensures Calmer(o.st, FireTerminal(o, reason).st)
  {
  }

  lemma TimerSettles(s: State, k: LoopKind, id: nat)
    requires Inv(s) && s.stopped && id in s.LoopOf(k).armed
    ensures Settles(s, FireTimer(s, k, id).st, id)
  {
  }

  lemma ReturnSettles(s: State, k: LoopKind, id: nat, handled: bool)
    requires Inv(s) && s.stopped && id in s.LoopOf(k).ticks
    ensures Settles(s, ReturnFromTick(s, k, id, handled).st, id)
  {
    hide Finish, NextTickBackoff, Settles, Inv;
    var l := s.LoopOf(k);
    var t := s.WithLoop(k, l.(backoff := NextTickBackoff(l.backoff, s.config.heartbeatMs)));
    BackoffCalms(s, k, NextTickBackoff(l.backoff, s.config.heartbeatMs));
    ItselfCalms(s);
    FinishSettles(s, Out(s, []), k, id);
    FinishSettles(s, Out(t, []), k, id);
  }

  lemma ItselfCalms(s: State)
    requires s.stopped
    ensures Calmer(s, s)
  {
  }

  lemma BackoffCalms(s: State, k: LoopKind, backoff: real)
    requires s.stopped
    ensures var t := s.WithLoop(k, s.LoopOf(k).(backoff := backoff));
      Calmer(s, t) && t.LoopOf(k).ticks == s.LoopOf(k).ticks
  {
  }

  lemma AcceptSettles(s: State, id: nat)
    requires Inv(s) && s.stopped && id in s.hb.ticks
    ensures Settles(s, AcceptHeartbeat(s, id).st, id)
  {
  }

  lemma FinishSettles(s: State, o: Out, k: LoopKind, id: nat)
    requires Calmer(s, o.st) && id in s.LoopOf(k).ticks && o.st.LoopOf(k).ticks == s.LoopOf(k).ticks
    ensures Settles(s, Finish(o, k, id).st, id)
  {
    var t := Finish(o, k, id).st;
    assert forall i :: Work(t, i) <= Work(o.st, i);
    assert Work(t, id) < Work(o.st, id) <= Work(s, id);
  }

  /** The listeners of a stopped adapter change nothing, and no recovery begins. */
  lemma StoppedJudges(s: State, info: Info, onPhase: ListenerCall, onRevoked: ListenerCall, reconnects: bool)
    requires s.stopped
    ensures var n := NotifyPhase(s, info, onPhase);
            && n.st == s.(knownPhase := Some(info.phase))
            && (JudgeInfo(n, info, onRevoked, reconnects).st == n.st
                || JudgeInfo(n, info, onRevoked, reconnects) == FireTerminal(n, Destroy))
  {
    hide FireTerminal;
    assert true;
  }

  lemma InfoSettles(s: State, id: nat, info: Info, onPhase: ListenerCall, onRevoked: ListenerCall, reconnects: bool)
    requires Inv(s) && s.stopped && id in s.pw.ticks
    ensures Settles(s, ReceiveInfo(s, id, info, onPhase, onRevoked, reconnects).st, id)
  {
    hide NotifyPhase, JudgeInfo, FireTerminal, Finish, Settles;
    var s' := s.(pw := s.pw.(backoff := 0.0));
    StoppedJudges(s', info, onPhase, onRevoked, reconnects);
    var n := NotifyPhase(s', info, onPhase);
    TerminalCalms(n, Destroy);
    assert Calmer(s, n.st);
    var o := JudgeInfo(n, info, onRevoked, reconnects);
    assert Calmer(s, o.st) by {
      forall i ensures Work(o.st, i) <= Work(s, i) {
        assert Work(o.st, i) <= Work(n.st, i);
      }
    }
    FinishSettles(s, o, Watcher, id);
  }

  lemma FailSettles(s: State, k: LoopKind, id: nat, terminal: bool)
    requires Inv(s) && s.stopped && id in s.LoopOf(k).ticks && s.LoopOf(k).ticks[id] == Rpc
    ensures Settles(s, FailTick(s, k, id, terminal).st, id)
  {
    hide SetTick, Settles, Inv;
    TickSettles(s, k, id, History);
    TickSettles(s, k, id, Verdict(false));
  }

  /** A tick that moves on has less before it. */
  lemma TickSettles(s: State, k: LoopKind, id: nat, pc: TickPc)
    requires s.stopped && id in s.LoopOf(k).ticks && TickWork(pc) < TickWork(s.LoopOf(k).ticks[id])
    ensures Settles(s, SetTick(s, k, id, pc), id)
  {
  }

  lemma HistorySettles(s: State, k: LoopKind, id: nat, history: Option<seq<string>>, reconnects: bool)
    requires Inv(s) && s.stopped && id in s.LoopOf(k).ticks && s.LoopOf(k).ticks[id] == History
    ensures Settles(s, ReceiveHistory(s, k, id, history, reconnects).st, id)
  {
    hide FireTerminal;
    assert id in s.LoopOf(k).Live();
    var o := Out(SetTick(s, k, id, Verdict(true)), []);
    var t := ReceiveHistory(s, k, id, history, reconnects).st;
    SetTickKeeps(s, k, id, Verdict(true));
    TerminalCalms(o, Destroy);
    VerdictSettles(s, k, id);
    assert t == o.st || t == FireTerminal(o, Destroy).st;
    CalmsOn(s, o.st, t, id);
  }

  lemma VerdictSettles(s: State, k: LoopKind, id: nat)
    requires s.stopped && id in s.LoopOf(k).ticks && s.LoopOf(k).ticks[id] == History
    ensures Settles(s, SetTick(s, k, id, Verdict(true)), id)
  {
    hide SetTick, Settles;
    TickSettles(s, k, id, Verdict(true));
  }

  lemma CalmsOn(s: State, m: State, t: State, id: nat)
    requires Settles(s, m, id) && Calmer(m, t)
    ensures Settles(s, t, id)
  {
    forall i ensures Work(t, i) <= Work(s, i) {
      assert Work(t, i) <= Work(m, i) <= Work(s, i);
    }
    assert Work(t, id) <= Work(m, id);
  }

  lemma GiveSettles(s: State, r: nat, reason: Reason)
    requires Inv(s) && s.stopped && r in s.routines
    ensures Settles(s, Give(Out(s, []), r, reason).st, r)
  {
    hide FireTerminal;
    TerminalCalms(Out(s, []), reason);
    assert Work(FireTerminal(Out(s, []), reason).st, r) <= Work(s, r);
    TerminalKeeps(Out(s, []), reason);
    assert r in FireTerminal(Out(s, []), reason).st.routines by { TerminalRoutines(Out(s, []), reason); }
  }

  lemma TerminalRoutines(o: Out, reason: Reason)
    ensures FireTerminal(o, reason).st.routines.Keys == o.st.routines.Keys
  {
  }

  lemma HookSettles(s: State, r: nat)
    requires Inv(s) && s.stopped && Enabled(s, HookReturns(r))
    ensures Settles(s, ReturnFromHook(s, r, s.routines[r]).st, r)
  {
    hide Give, Settles, SetRoutine, Repoint;
    match s.routines[r]
    case RebindStarting(successor) => CalmRepoint(s, s.token.value.(runId := successor), r, RebindResuming);
    case LoopStarting(_) => GiveSettles(s, r, ReconnectExhausted);
    case _ => EndSettles(s, r);
  }

  lemma EndSettles(s: State, r: nat)
    requires s.stopped && r in s.routines
    ensures Settles(s, Resume(Out(s, []), r).st, r)
  {
  }

  lemma RoutineSettles(s: State, e: Event)
    requires Inv(s) && s.stopped && Enabled(s, e)
    requires e.Wakes? || e.PrecheckInfo? || e.PrecheckFails? || e.DescribeReply? || e.ReclaimGranted? || e.ReclaimFails?
    ensures Settles(s, Step(s, e).st, e.routine)
  {
    hide Give, Settles, SetRoutine, Repoint, Wake, Inv;
    GiveSettles(s, e.routine, Destroy);
    GiveSettles(s, e.routine, Superseded);
    GiveSettles(s, e.routine, ReconnectExhausted);
    if e.ReclaimGranted? {
      CalmRepoint(s, e.token, e.routine, LoopResuming(s.routines[e.routine].vars));
    } else if e.Wakes? {
      WakeSettles(s, e.routine);
    } else {
      MoveSettles(s, e.routine, LoopClaiming(s.routines[e.routine].vars));
      MoveSettles(s, e.routine, LoopDescribe(s.routines[e.routine].vars));
    }
  }

  lemma MoveSettles(s: State, r: nat, pc: Routine)
    requires s.stopped && r in s.routines
    ensures RoutineWork(pc) < RoutineWork(s.routines[r]) ==> Settles(s, SetRoutine(s, r, pc), r)
  {
  }

  lemma CalmRepoint(s: State, token: Token, r: nat, pc: Routine)
    requires s.stopped && r in s.routines && RoutineWork(pc) < RoutineWork(s.routines[r])
    ensures Settles(s, SetRoutine(Repoint(s, token), r, pc), r)
  {
  }

  lemma WakeSettles(s: State, r: nat)
    requires s.stopped && r in s.routines && (s.routines[r].LoopWoken? || s.routines[r].LoopAborted?)
    ensures Settles(s, Wake(s, r, s.routines[r]).st, r)
  {
  }

  lemma CrashSettles(s: State, r: nat)
    requires Inv(s) && s.stopped && r in s.routines
    ensures Settles(s, Step(s, Crashes(r)).st, r)
  {
    hide FireTerminal;
    EndKeeps(Out(s, []), r);
    var o := EndRoutine(Out(s, []), r);
    TerminalCalms(o, ReconnectExhausted);
    assert Settles(s, o.st, r);
    assert Work(FireTerminal(o, ReconnectExhausted).st, r) <= Work(o.st, r);
  }

  // ----- the run-down

  /** Events that resume something; calls from outside and the passing of time are not. */
  predicate Progresses(s: State, e: Event) {
    Enabled(s, e) && !e.CallStop? && !e.SubclassSleeps? && !e.ClockAdvances?
  }

  lemma StartSettles(s: State, e: Event)
    requires Inv(s) && s.stopped && Enabled(s, e) && (e.CallStart? || e.StartReply?)
    ensures Step(s, e).st.stopped && Remaining(Step(s, e).st) < Remaining(s)
  {
    hide FireTimer, AcceptHeartbeat, ReceiveInfo, FailTick, ReceiveHistory, ReturnFromTick, ReturnFromHook,
         ElapseSleep, Wake, ReceivePrecheck, FailPrecheck, ReceiveDescribe, FailReclaim, FireTerminal, EndRoutine,
         ArmBoth, Stop, SetRoutine, Repoint, Inv, Work;
    var t := Step(s, e).st;
    if e.StartReply? && e.reply.Some? {
      var s' := s.(start := Started, token := e.reply, pinned := Some(e.reply.value.runId));
      StartArms(s);
      SameBelow(s, s');
      BothArmed(s');
      SameSums(s, t, s.nextId);
      assert TotalWork(t, s.nextId + 2) == TotalWork(t, s.nextId) + Work(t, s.nextId) + Work(t, s.nextId + 1);
    } else {
      SameBelow(s, t);
      SameSums(s, t, s.nextId);
    }
  }

  /** A claim still awaited finds no number in use from `nextId` on. */
  lemma StartArms(s: State)
    requires Inv(s)
    ensures forall id :: id >= s.nextId ==> Work(s, id) == 0
  {
  }

  lemma SameBelow(s: State, t: State)
    requires t.hb == s.hb && t.pw == s.pw && t.routines == s.routines
    ensures forall id :: Work(t, id) == Work(s, id)
  {
  }

  lemma BothArmed(s: State)
    requires Work(s, s.nextId) == 0 && Work(s, s.nextId + 1) == 0
    ensures var t := ArmBoth(s);
      && t.nextId == s.nextId + 2 && t.stopped == s.stopped && t.start == s.start
      && Work(t, s.nextId) == 1 && Work(t, s.nextId + 1) == 1
      && forall id: nat :: id < s.nextId ==> Work(t, id) == Work(s, id)
  {
    hide Undisturbed, SameWork, SameSelf;
  }

  lemma {:induction false} SameSums(s: State, t: State, n: nat)
    requires forall id: nat | id < n :: Work(t, id) == Work(s, id)
    ensures TotalWork(t, n) == TotalWork(s, n)
  {
    if n > 0 { SameSums(s, t, n - 1); }
  }

  /** Calls from outside and the passing of time leave a stopped adapter's work alone. */
  lemma IdleStays(s: State, e: Event)
    requires s.stopped && !Progresses(s, e)
    ensures Step(s, e).st.stopped && Remaining(Step(s, e).st) == Remaining(s)
  {
    hide FireTimer, AcceptHeartbeat, ReceiveInfo, FailTick, ReceiveHistory, ReturnFromTick, ReturnFromHook,
         ElapseSleep, Wake, ReceivePrecheck, FailPrecheck, ReceiveDescribe, FailReclaim, FireTerminal, EndRoutine,
         ArmBoth, SetRoutine, Repoint, Work;
    SameBelow(s, Step(s, e).st);
    SameSums(s, Step(s, e).st, s.nextId);
  }

  /** Whatever still happens to a stopped adapter, less work remains after it; and it stays stopped. */
  lemma StopRunsDown(s: State, e: Event)
    requires Inv(s) && s.stopped
    ensures Step(s, e).st.stopped
    ensures if Progresses(s, e) then Remaining(Step(s, e).st) < Remaining(s)
      else Remaining(Step(s, e).st) == Remaining(s)
  {
    hide Step, Inv, Work, Subject;
    if !Progresses(s, e) {
      IdleStays(s, e);
    } else if e.CallStart? || e.StartReply? {
      StartSettles(s, e);
    } else {
      var id := Subject(s, e);
      SegmentSettles(s, e);
      InvNumbers(s);
      WorkIsNumbered(s, id);
      LessSums(s, Step(s, e).st, id, s.nextId);
    }
  }

  lemma InvNumbers(s: State)
    requires Inv(s)
    ensures Numbered(s)
  {
  }

  /** The number of the timer, tick or routine that an event resumes. */
  function Subject(s: State, e: Event): nat {
    match e
    case TimerFires(_, id) => id
    case HeartbeatAccepted(id) => id
    case WatcherInfo(id, _, _, _, _) => id
    case TickFails(_, id, _) => id
    case HistoryReply(_, id, _, _) => id
    case TickReturns(_, id) => id
    case HookReturns(r) => r
    case Wakes(r) => r
    case PrecheckInfo(r, _) => r
    case PrecheckFails(r, _) => r
    case DescribeReply(r, _) => r
    case ReclaimGranted(r, _) => r
    case ReclaimFails(r, _) => r
    case Crashes(r) => r
    case _ => 0
  }

  lemma WorkIsNumbered(s: State, id: nat)
    requires Numbered(s) && Work(s, id) > 0
    ensures id < s.nextId
  {
  }

  lemma SegmentSettles(s: State, e: Event)
    requires Inv(s) && s.stopped && Progresses(s, e) && !e.CallStart? && !e.StartReply?
    ensures Settles(s, Step(s, e).st, Subject(s, e))
  {
    hide FireTimer, AcceptHeartbeat, ReceiveInfo, FailTick, ReceiveHistory, ReturnFromTick, ReturnFromHook, Wake,
         ReceivePrecheck, FailPrecheck, ReceiveDescribe, FailReclaim, FireTerminal, EndRoutine, ArmBoth, SetRoutine,
         Repoint, Stop, Settles;
    match e
    case TimerFires(k, id) => TimerSettles(s, k, id);
    case HeartbeatAccepted(id) => AcceptSettles(s, id);
    case WatcherInfo(id, info, onPhase, onRevoked, reconnects) =>
      InfoSettles(s, id, info, onPhase, onRevoked, reconnects);
    case TickFails(k, id, terminal) => FailSettles(s, k, id, terminal);
    case HistoryReply(k, id, history, reconnects) => HistorySettles(s, k, id, history, reconnects);
    case TickReturns(k, id) => ReturnSettles(s, k, id, s.LoopOf(k).ticks[id].handled);
    case Crashes(r) => CrashSettles(s, r);
    case SleepElapses(_) =>
    case HookReturns(r) => HookSettles(s, r);
    case _ => RoutineSettles(s, e);
  }

  /** How many events of a run from `s` resume something. */
  ghost function Resumptions(s: State, es: seq<Event>): nat
    decreases |es|
  {
    if es == [] then 0
    else (if Progresses(s, es[0]) then 1 else 0) + Resumptions(Step(s, es[0]).st, es[1..])
  }

  /** Quiescence: after a stop, in any order and with any replies, no more than `Remaining` segments ever run. */
  lemma {:induction false} StoppedComesToRest(s: State, es: seq<Event>)
    requires Inv(s) && s.stopped
    ensures Resumptions(s, es) <= Remaining(s)
    decreases |es|
  {
    if es != [] {
      StopRunsDown(s, es[0]);
      StepKeepsInv(s, es[0]);
      StoppedComesToRest(Step(s, es[0]).st, es[1..]);
    }
  }

  /** And nothing is stuck: whatever work is left, some event resumes it, if need be after time has passed. */
  lemma WorkCanProceed(s: State, id: nat) returns (ms: real, e: Event)
    requires Inv(s) && s.stopped && Work(s, id) > 0
    ensures 0.0 <= ms && Progresses(Step(s, ClockAdvances(ms)).st, e) && Subject(s, e) == id
  {
    hide Step, Inv, Work, Progresses, RoutineEvent, TickEvent;
    ms := 0.0;
    WorkHangsSomewhere(s, id);
    TimePasses(s, ms);
    if id in s.routines {
      e := RoutineEvent(s, id);
      RoutineCanProceed(s, id);
      SameEnabled(s, e, ms);
    } else if id in s.hb.ticks {
      e := TickEvent(s, Heartbeat, id);
      TickCanProceed(s, Heartbeat, id);
      SameEnabled(s, e, ms);
    } else if id in s.pw.ticks {
      e := TickEvent(s, Watcher, id);
      TickCanProceed(s, Watcher, id);
      SameEnabled(s, e, ms);
    } else {
      var k := if id in s.hb.armed then Heartbeat else Watcher;
      var due := s.LoopOf(k).armed[id];
      ms, e := if due <= s.now then 0.0 else due - s.now, TimerFires(k, id);
      TimePasses(s, ms);
      TimerCanProceed(s.(now := s.now + ms), k, id);
    }
  }

  lemma WorkHangsSomewhere(s: State, id: nat)
    requires Work(s, id) > 0
    ensures id in s.routines || id in s.hb.ticks || id in s.pw.ticks || id in s.hb.armed || id in s.pw.armed
  {
  }

  /** What waits for no clock waits no longer when time has passed. */
  lemma SameEnabled(s: State, e: Event, ms: real)
    requires Progresses(s, e) && !e.TimerFires? && !e.SleepElapses?
    ensures Progresses(s.(now := s.now + ms), e)
  {
  }

  lemma RoutineCanProceed(s: State, r: nat)
    requires Inv(s) && s.stopped && r in s.routines
    ensures var e := RoutineEvent(s, r);
      Progresses(s, e) && Subject(s, e) == r && !e.TimerFires? && !e.SleepElapses?
  {
    assert !s.routines[r].LoopSleeping?;
  }

  lemma TickCanProceed(s: State, k: LoopKind, id: nat)
    requires id in s.LoopOf(k).ticks
    ensures var e := TickEvent(s, k, id);
      Progresses(s, e) && Subject(s, e) == id && !e.TimerFires? && !e.SleepElapses?
  {
  }

  lemma TimerCanProceed(s: State, k: LoopKind, id: nat)
    requires id in s.LoopOf(k).armed && s.LoopOf(k).armed[id] <= s.now
    ensures Progresses(s, TimerFires(k, id))
  {
  }

  /** A stopped adapter with anything left to do, a start still under way included, has an event that does it. */
  lemma SomethingProceeds(s: State) returns (ms: real, e: Event)
    requires Inv(s) && s.stopped && Remaining(s) > 0
    ensures 0.0 <= ms && Progresses(Step(s, ClockAdvances(ms)).st, e)
    ensures Remaining(Step(Step(s, ClockAdvances(ms)).st, e).st) < Remaining(s)
  {
    hide Step, Inv;
    if StartWork(s.start) > 0 {
      ms, e := 0.0, if s.start.NotCalled? then CallStart else StartReply(None);
      TimePasses(s, ms);
      SameEnabled(s, e, ms);
    } else {
      var id := BusyNumber(s, s.nextId);
      ms, e := WorkCanProceed(s, id);
    }
    StepKeepsInv(s, ClockAdvances(ms));
    StopRunsDown(s, ClockAdvances(ms));
    StopRunsDown(Step(s, ClockAdvances(ms)).st, e);
  }

  lemma {:induction false} BusyNumber(s: State, n: nat) returns (id: nat)
    requires TotalWork(s, n) > 0
    ensures id < n && Work(s, id) > 0
  {
    hide Work;
    if Work(s, n - 1) > 0 {
      id := n - 1;
    } else {
      id := BusyNumber(s, n - 1);
    }
  }

  function RoutineEvent(s: State, r: nat): Event {
    if r !in s.routines then CallStart
    else match s.routines[r]
      case LoopWoken(_) | LoopAborted(_) => Wakes(r)
      case LoopPrecheck(_) => PrecheckFails(r, false)
      case LoopDescribe(_) => DescribeReply(r, true)
      case LoopClaiming(_) => ReclaimFails(r, false)
      case _ => HookReturns(r)
  }

  function TickEvent(s: State, k: LoopKind, id: nat): Event
    requires id in s.LoopOf(k).ticks
  {
    match s.LoopOf(k).ticks[id]
    case Rpc => TickFails(k, id, false)
    case History => HistoryReply(k, id, None, false)
    case Verdict(_) => TickReturns(k, id)
  }

  // ----- what a stopped adapter no longer does

  /** Effects that only a running adapter has. */
  predicate Traffic(x: Effect) {
    x.HeartbeatSent? || x.QuerySent? || x.PrecheckSent? || x.ExitedSent?
  }

  predicate IsReply(e: Event) {
    e.WatcherInfo? || e.HistoryReply?
  }

  predicate IsRoutineEvent(e: Event) {
    e.HookReturns? || e.Wakes? || e.PrecheckInfo? || e.PrecheckFails? || e.DescribeReply? || e.ReclaimGranted?
    || e.ReclaimFails? || e.Crashes?
  }

  lemma StoppedRevokes(o: Out, reason: Reason, onRevoked: ListenerCall, reconnects: bool)
    requires o.st.stopped
    ensures Revoke(o, reason, onRevoked, reconnects).fx == o.fx + [RevokedNotified(reason)]
  {
    hide Silence, Undisturbed, SameWork, SameSelf;
  }

  lemma StoppedTells(s: State, info: Info, onPhase: ListenerCall)
    requires s.stopped
    ensures var n := NotifyPhase(s, info, onPhase);
      n.st.stopped && (n.fx == [] || n.fx == [PhaseNotified(info.phase)])
  {
    hide Silence, Undisturbed, SameWork, SameSelf;
  }

  lemma TerminalTells(o: Out, reason: Reason, x: Effect)
    ensures x in FireTerminal(o, reason).fx ==> x in o.fx || x == TerminalNotified(reason)
  {
    hide Silence, Undisturbed, SameWork, SameSelf;
  }

  lemma StoppedInfoIsSilent(s: State, e: Event, x: Effect)
    requires s.stopped && e.WatcherInfo? && (Traffic(x) || x.ReclaimSent?)
    ensures x !in Step(s, e).fx
  {
    hide NotifyPhase, Revoke, FireTerminal, Finish, Undisturbed, SameWork, SameSelf;
    var s' := s.(pw := s.pw.(backoff := 0.0));
    var n := NotifyPhase(s', e.info, e.onPhase);
    StoppedTells(s', e.info, e.onPhase);
    StoppedRevokes(n, Superseded, e.onRevoked, e.reconnects);
    StoppedRevokes(n, HeartbeatTimeout, e.onRevoked, e.reconnects);
    TerminalTells(n, Destroy, x);
  }

  lemma StoppedHistoryIsSilent(s: State, e: Event, x: Effect)
    requires s.stopped && e.HistoryReply? && (Traffic(x) || x.ReclaimSent?)
    ensures x !in Step(s, e).fx
  {
    hide SetTick, FindSuccessor, Silence, Undisturbed, SameWork, SameSelf;
    assert SetTick(s, e.kind, e.id, Verdict(true)).stopped by { SetTickStops(s, e.kind, e.id, Verdict(true)); }
  }

  lemma StoppedReplyIsSilent(s: State, e: Event, x: Effect)
    requires s.stopped && IsReply(e) && (Traffic(x) || x.ReclaimSent?)
    ensures x !in Step(s, e).fx
  {
    hide Step;
    if e.WatcherInfo? {
      StoppedInfoIsSilent(s, e, x);
    } else {
      StoppedHistoryIsSilent(s, e, x);
    }
  }

  lemma StoppedRoutineIsSilent(s: State, e: Event, x: Effect)
    requires s.stopped && IsRoutineEvent(e) && (Traffic(x) || x.ReclaimSent?)
    ensures x in Step(s, e).fx ==> x.ReclaimSent? && e.PrecheckInfo? && Enabled(s, e)
  {
    hide Silence, Repoint, SetRoutine, ArmBoth, Undisturbed, SameWork, SameSelf;
  }

  lemma StoppedTickIsSilent(s: State, e: Event, x: Effect)
    requires s.stopped && !IsReply(e) && !IsRoutineEvent(e) && (Traffic(x) || x.ReclaimSent?)
    ensures x !in Step(s, e).fx
  {
    hide Finish;
  }

  /**
   * Once stopped: no heartbeat, query, pre-check or exit signal starts, no sleeper is pending,
   * no timer is armed except the two of a start still under way, and a claim starts only from a
   * pre-check that was already in flight.
   */
  lemma StoppedIsSilent(s: State, e: Event, x: Effect)
    requires Inv(s) && s.stopped
    ensures Traffic(x) ==> x !in Step(s, e).fx
    ensures ReclaimSent in Step(s, e).fx ==> e.PrecheckInfo? && Enabled(s, e)
    ensures Step(s, e).st.sleepers == map[]
    ensures !e.StartReply? ==>
              Step(s, e).st.hb.armed.Keys <= s.hb.armed.Keys && Step(s, e).st.pw.armed.Keys <= s.pw.armed.Keys
  {
    hide Step;
    StepKeepsInv(s, e);
    StopRunsDown(s, e);
    if !Traffic(x) {
    } else if IsReply(e) {
      StoppedReplyIsSilent(s, e, x);
    } else if IsRoutineEvent(e) {
      StoppedRoutineIsSilent(s, e, x);
    } else {
      StoppedTickIsSilent(s, e, x);
    }
    if IsReply(e) {
      StoppedReplyIsSilent(s, e, ReclaimSent);
    } else if IsRoutineEvent(e) {
      StoppedRoutineIsSilent(s, e, ReclaimSent);
    } else {
      StoppedTickIsSilent(s, e, ReclaimSent);
    }
    if !e.StartReply? { ArmsNothing(s, e); }
  }

  lemma ArmsNothing(s: State, e: Event)
    requires Inv(s) && s.stopped && !e.StartReply?
    ensures Step(s, e).st.hb.armed.Keys <= s.hb.armed.Keys && Step(s, e).st.pw.armed.Keys <= s.pw.armed.Keys
  {
    hide FireTimer, AcceptHeartbeat, ReceiveInfo, FailTick, ReceiveHistory, ReturnFromTick, ReturnFromHook, Wake,
         ReceivePrecheck, FailPrecheck, ReceiveDescribe, FailReclaim, FireTerminal, EndRoutine, ArmBoth, ElapseSleep;
    if Progresses(s, e) && !e.CallStart? {
      SegmentSettles(s, e);
    }
  }

  lemma {:induction false} StoppedStays(c: Config, es: seq<Event>, i: nat)
    requires i <= |es| && Run(c, es[..i]).stopped
    ensures Run(c, es).stopped
    ensures (forall r :: !AtPrecheck(Run(c, es[..i]), r)) ==> (forall r :: !AtPrecheck(Run(c, es), r))
  {
    hide Step, Inv, AtPrecheck;
    if i == |es| {
      assert es[..i] == es;
    } else {
      var n := |es| - 1;
      assert es[..n][..i] == es[..i];
      StoppedStays(c, es[..n], i);
      RunKeepsInv(c, es[..n]);
      StopRunsDown(Run(c, es[..n]), es[n]);
      StoppedAsksNoPrecheck(Run(c, es[..n]), es[n]);
    }
  }

  lemma StoppedAsksNoPrecheck(s: State, e: Event)
    requires Inv(s) && s.stopped
    ensures forall r :: AtPrecheck(Step(s, e).st, r) ==> AtPrecheck(s, r)
  {
    hide FireTimer, AcceptHeartbeat, ReceiveInfo, FailTick, ReceiveHistory, ReturnFromTick, ReturnFromHook, Wake,
         ReceivePrecheck, FailPrecheck, ReceiveDescribe, FailReclaim, FireTerminal, EndRoutine, ElapseSleep;
    if Progresses(s, e) && !e.CallStart? && !e.StartReply? {
      SegmentSettles(s, e);
    }
  }

  lemma ReclaimLeavesPrecheck(s: State, e: Event)
    requires Inv(s) && s.stopped && ReclaimSent in Step(s, e).fx
    ensures forall r :: !AtPrecheck(Step(s, e).st, r)
  {
    StoppedIsSilent(s, e, ReclaimSent);
    var q :| Solo(s.routines.Keys, q);
    assert Step(s, e) == ReceivePrecheck(s, e.routine, s.routines[e.routine].vars, e.info);
    ReclaimOnlyClaims(s, e.routine, s.routines[e.routine].vars, e.info);
    assert forall r :: r in s.routines ==> r == q;
  }

  lemma ReclaimOnlyClaims(s: State, r: nat, v: LoopVars, info: Info)
    requires ReclaimSent in ReceivePrecheck(s, r, v, info).fx
    ensures ReceivePrecheck(s, r, v, info).st == SetRoutine(s, r, LoopClaiming(v))
  {
    hide Give, Retry, SetRoutine;
    GiveClaimsNothing(s, r, Destroy);
    GiveClaimsNothing(s, r, Superseded);
    RetryClaimsNothing(s, r, v);
  }

  lemma GiveClaimsNothing(s: State, r: nat, reason: Reason)
    ensures ReclaimSent !in Give(Out(s, []), r, reason).fx
  {
    hide Silence, Undisturbed, SameWork, SameSelf;
  }

  lemma RetryClaimsNothing(s: State, r: nat, v: LoopVars)
    ensures ReclaimSent !in Retry(Out(s, []), r, v).fx
  {
    hide Give, SetRoutine, Undisturbed, SameWork, SameSelf;
    GiveClaimsNothing(s, r, ReconnectExhausted);
  }

  /** However the run goes on after a stop, the reconnect loop starts at most one more claim. */
  lemma OneMoreClaimAtMost(c: Config, es: seq<Event>, i: nat, j: nat)
    requires i < j < |es| && Run(c, es[..i]).stopped && ReclaimSent in At(c, es, i).fx
    ensures ReclaimSent !in At(c, es, j).fx
  {
    hide Step;
    RunKeepsInv(c, es[..i]);
    StopRunsDown(Run(c, es[..i]), es[i]);
    ReclaimLeavesPrecheck(Run(c, es[..i]), es[i]);
    assert es[..i + 1][..i] == es[..i];
    assert es[..j][..i + 1] == es[..i + 1];
    StoppedStays(c, es[..j], i + 1);
    RunKeepsInv(c, es[..j]);
    StoppedIsSilent(Run(c, es[..j]), es[j], ReclaimSent);
    assert es[j].PrecheckInfo? ==> !AtPrecheck(Run(c, es[..j]), es[j].routine);
  }
}
