/** Building runs of the lifecycle step by step. */
module LifecycleRuns {
  import opened Options
  import opened Lifecycle

  /** The state that `es` leads to from `s`. */
  function Steps(s: State, es: seq<Event>): State
    decreases |es|
  {
    if es == [] then s else Steps(Step(s, es[0]).st, es[1..])
  }

  lemma RunSnoc(c: Config, es: seq<Event>, e: Event)
    ensures Run(c, es + [e]) == Step(Run(c, es), e).st
  {
    hide Step;
    assert (es + [e])[..|es|] == es;
  }

  /** A run can be cut anywhere and taken up from the state at the cut. */
  lemma {:induction false} RunResumes(c: Config, es: seq<Event>, fs: seq<Event>)
    ensures Run(c, es + fs) == Steps(Run(c, es), fs)
    decreases |fs|
  {
    hide Step;
    if fs == [] {
      assert es + fs == es;
    } else {
      RunSnoc(c, es, fs[0]);
      RunResumes(c, es + [fs[0]], fs[1..]);
      assert es + [fs[0]] + fs[1..] == es + fs;
    }
  }

  lemma StepsCons(s: State, e: Event, es: seq<Event>)
    ensures Steps(s, [e] + es) == Steps(Step(s, e).st, es)
  {
    hide Step;
    assert ([e] + es)[1..] == es;
  }

  lemma FourSteps(s: State, e1: Event, e2: Event, e3: Event, e4: Event)
    ensures Steps(s, [e1, e2, e3, e4]) == Step(Step(Step(Step(s, e1).st, e2).st, e3).st, e4).st
  {
    hide Step;
    StepsCons(s, e1, [e2, e3, e4]);
    StepsCons(Step(s, e1).st, e2, [e3, e4]);
    StepsCons(Step(Step(s, e1).st, e2).st, e3, [e4]);
    assert [e1] + [e2, e3, e4] == [e1, e2, e3, e4] && [e2] + [e3, e4] == [e2, e3, e4] && [e3] + [e4] == [e3, e4];
  }

  function Attach(t: Token): seq<Event> {
    [CallStart, StartReply(Some(t))]
  }

  /** The adapter right after its claim was granted: timer 0 is the heartbeat's and timer 1 the watcher's. */
  function JustClaimed(c: Config, t: Token): State {
    State(c, 0.0, 2, Started, false, false, false, Some(t), Some(t.runId), None,
          Loop(map[0 := c.heartbeatMs], Some(0), map[], 0.0), Loop(map[1 := c.heartbeatMs * 5.0], Some(1), map[], 0.0),
          map[], map[])
  }

  lemma AttachRuns(c: Config, t: Token)
    ensures Run(c, Attach(t)) == JustClaimed(c, t)
  {
    assert Attach(t)[..1] == [CallStart] && [CallStart][..0] == [];
    assert Run(c, [CallStart]) == Init(c).(start := Claiming);
  }

  /** Both ticks have sent their RPC, at the moment the watcher's first query is due. */
  function BothSent(c: Config, t: Token): State {
    JustClaimed(c, t).(now := c.heartbeatMs * 5.0,
                    hb := Loop(map[], Some(0), map[0 := Rpc], 0.0), pw := Loop(map[], Some(1), map[1 := Rpc], 0.0))
  }

  function SendBoth(c: Config): seq<Event> {
    [ClockAdvances(c.heartbeatMs * 5.0), TimerFires(Heartbeat, 0), ClockAdvances(0.0), TimerFires(Watcher, 1)]
  }

  lemma BothAreSent(c: Config, t: Token)
    requires c.Valid()
    ensures Steps(JustClaimed(c, t), SendBoth(c)) == BothSent(c, t)
  {
    hide Step, Steps;
    var s0, es := JustClaimed(c, t), SendBoth(c);
    FourSteps(s0, es[0], es[1], es[2], es[3]);
    var s1 := s0.(now := c.heartbeatMs * 5.0);
    TimePasses(s0, c.heartbeatMs * 5.0);
    HeartbeatGoesOut(s1);
    var s2 := s1.(hb := Loop(map[], Some(0), map[0 := Rpc], 0.0));
    TimePasses(s2, 0.0);
    QueryGoesOut(s2);
    assert SendBoth(c) == [es[0], es[1], es[2], es[3]];
  }

  lemma TimePasses(s: State, ms: real)
    requires 0.0 <= ms
    ensures Step(s, ClockAdvances(ms)) == Out(s.(now := s.now + ms), [])
  {
  }

  lemma HeartbeatGoesOut(s: State)
    requires s.hb == Loop(map[0 := s.config.heartbeatMs], Some(0), map[], 0.0) && s.config.heartbeatMs <= s.now
    requires !s.stopped && !s.terminalFired && !s.reconnecting && s.pinned.Some? && s.token.Some?
    ensures Step(s, TimerFires(Heartbeat, 0))
         == Out(s.(hb := Loop(map[], Some(0), map[0 := Rpc], 0.0)),
           [HeartbeatSent(s.token.value.attachmentId, s.pinned.value)])
  {
    assert s.hb.armed - {0} == map[];
  }

  lemma QueryGoesOut(s: State)
    requires s.pw == Loop(map[1 := s.config.heartbeatMs * 5.0], Some(1), map[], 0.0)
      && s.config.heartbeatMs * 5.0 <= s.now
    requires !s.stopped && !s.terminalFired && !s.reconnecting && s.pinned.Some? && s.token.Some?
    ensures Step(s, TimerFires(Watcher, 1))
         == Out(s.(pw := Loop(map[], Some(1), map[1 := Rpc], 0.0)), [QuerySent(s.pinned.value)])
  {
    assert s.pw.armed - {1} == map[];
  }

  /**
   * The watcher's query fails for good, the history names a successor, and the adapter rebinds to it, all while the
   * heartbeat signal is in flight.
   */
  function RebindMeanwhile(successor: string): seq<Event> {
    [TickFails(Watcher, 1, true), HistoryReply(Watcher, 1, Some([successor]), true), HookReturns(2), HookReturns(2)]
  }

  /** Two heartbeat loops: the tick that was in flight, and the timer that the rebind armed. */
  function DoubledUp(c: Config, t: Token, successor: string): State {
    var now := c.heartbeatMs * 5.0;
    BothSent(c, t).(nextId := 5, token := Some(t.(runId := successor)), pinned := Some(successor),
      hb := Loop(map[3 := now + c.heartbeatMs], Some(3), map[0 := Rpc], 0.0),
      pw := Loop(map[4 := now + c.heartbeatMs * 5.0], Some(4), map[1 := Verdict(true)], 0.0))
  }

  lemma RebindRuns(c: Config, t: Token, successor: string)
    requires c.Valid() && successor != ""
    ensures Steps(BothSent(c, t), RebindMeanwhile(successor)) == DoubledUp(c, t, successor)
  {
    hide Step, Steps;
    var es := RebindMeanwhile(successor);
    var s0 := BothSent(c, t);
    FourSteps(s0, es[0], es[1], es[2], es[3]);
    assert es == [es[0], es[1], es[2], es[3]];
    var s1 := s0.(pw := Loop(map[], Some(1), map[1 := History], 0.0));
    QueryFails(s0);
    RebindStarts(s1, successor, true);
    var s2 := s1.(pw := Loop(map[], None, map[1 := Verdict(true)], 0.0), hb := Loop(map[], None, map[0 := Rpc], 0.0),
                  reconnecting := true, routines := map[2 := RebindStarting(successor)], nextId := 3);
    RebindGoesOn(s2, successor);
    RebindEnds(s2.(token := Some(t.(runId := successor)), pinned := Some(successor),
                   routines := map[2 := RebindResuming]));
  }

  lemma QueryFails(s: State)
    requires s.pw == Loop(map[], Some(1), map[1 := Rpc], 0.0) && s.pinned.Some?
    ensures Step(s, TickFails(Watcher, 1, true))
         == Out(s.(pw := Loop(map[], Some(1), map[1 := History], 0.0)), [HistorySent(s.pinned.value)])
  {
  }

  lemma RebindGoesOn(s: State, successor: string)
    requires s.routines == map[2 := RebindStarting(successor)] && s.token.Some?
    requires s.knownPhase.None? && s.hb.backoff == 0.0 && s.pw.backoff == 0.0
    ensures Step(s, HookReturns(2)).st
         == s.(token := Some(s.token.value.(runId := successor)), pinned := Some(successor),
               routines := map[2 := RebindResuming])
  {
  }

  lemma RebindStarts(s: State, successor: string, reconnects: bool)
    requires s.pw == Loop(map[], Some(1), map[1 := History], 0.0) && s.hb == Loop(map[], Some(0), map[0 := Rpc], 0.0)
    requires !s.stopped && !s.terminalFired && !s.reconnecting && s.pinned.Some? && s.token.Some?
    requires s.routines == map[] && s.nextId == 2 && successor != "" && reconnects
    ensures Step(s, HistoryReply(Watcher, 1, Some([successor]), reconnects)).st
         == s.(pw := Loop(map[], None, map[1 := Verdict(true)], 0.0), hb := Loop(map[], None, map[0 := Rpc], 0.0),
               reconnecting := true, routines := map[2 := RebindStarting(successor)], nextId := 3)
  {
    hide Undisturbed, SameWork, SameSelf;
    assert FindSuccessor(Some([successor])) == Some(successor);
  }

  lemma RebindEnds(s: State)
    requires s.routines == map[2 := RebindResuming] && !s.stopped && s.nextId == 3
    requires s.hb.backoff == 0.0 && s.pw.backoff == 0.0 && s.hb.armed == map[] && s.pw.armed == map[]
    ensures Step(s, HookReturns(2)).st
         == s.(hb := s.hb.(armed := map[3 := s.now + s.config.heartbeatMs], field := Some(3)),
               pw := s.pw.(armed := map[4 := s.now + s.config.heartbeatMs * 5.0], field := Some(4)),
               reconnecting := false, routines := map[], nextId := 5)
  {
    hide Undisturbed, SameWork, SameSelf;
    assert s.routines - {2} == map[];
  }

  // ----- a lease reaped, and a stop that lands on the pre-check

  /** The watcher sees the lease reaped, and the reconnect loop begins to sleep before its first attempt. */
  function Reaped(c: Config): seq<Event> {
    [ ClockAdvances(c.heartbeatMs * 5.0), TimerFires(Watcher, 1),
      WatcherInfo(1, Info(Detached, None), Quiet, Quiet, true), HookReturns(2) ]
  }

  function FirstAttempt(c: Config, t: Token): LoopVars {
    LoopVars(t.attachmentId, c.heartbeatMs * 5.0 + c.budgetMs, c.baseMs, 1)
  }

  function Sleeping(c: Config, t: Token): State {
    var now := c.heartbeatMs * 5.0;
    JustClaimed(c, t).(now := now, nextId := 4, reconnecting := true, knownPhase := Some(Detached),
      hb := Loop(map[], None, map[], 0.0), pw := Loop(map[], None, map[], 0.0), sleepers := map[3 := now + c.baseMs],
      routines := map[2 := LoopSleeping(FirstAttempt(c, t), 3)])
  }

  lemma SleepingRuns(c: Config, t: Token)
    requires c.Valid() && 0.0 < c.budgetMs
    ensures Steps(JustClaimed(c, t), Reaped(c)) == Sleeping(c, t)
  {
    hide Step, Steps;
    var s0, es := JustClaimed(c, t), Reaped(c);
    FourSteps(s0, es[0], es[1], es[2], es[3]);
    assert es == [es[0], es[1], es[2], es[3]];
    var s1 := s0.(now := c.heartbeatMs * 5.0);
    TimePasses(s0, c.heartbeatMs * 5.0);
    QueryGoesOut(s1);
    var s2 := s1.(pw := Loop(map[], Some(1), map[1 := Rpc], 0.0));
    LeaseIsReaped(s2);
    FirstSleep(s2.(knownPhase := Some(Detached), reconnecting := true, nextId := 3,
                   hb := Loop(map[], None, map[], 0.0), pw := Loop(map[], None, map[], 0.0),
                   routines := map[2 := LoopStarting(t.attachmentId)]), t.attachmentId);
  }

  lemma LeaseIsReaped(s: State)
    requires s.pw == Loop(map[], Some(1), map[1 := Rpc], 0.0)
      && s.hb == Loop(map[0 := s.config.heartbeatMs], Some(0), map[], 0.0)
    requires !s.stopped && !s.terminalFired && !s.reconnecting && s.pinned.Some? && s.token.Some? && s.knownPhase.None?
    requires s.routines == map[] && s.nextId == 2
    ensures Step(s, WatcherInfo(1, Info(Detached, None), Quiet, Quiet, true)).st
         == s.(knownPhase := Some(Detached), reconnecting := true, nextId := 3,
               hb := Loop(map[], None, map[], 0.0), pw := Loop(map[], None, map[], 0.0),
               routines := map[2 := LoopStarting(s.token.value.attachmentId)])
  {
    hide Undisturbed, SameWork, SameSelf;
    assert s.hb.armed - {0} == map[];
    assert s.pw.ticks - {1} == map[];
  }

  lemma FirstSleep(s: State, holder: string)
    requires s.routines == map[2 := LoopStarting(holder)] && s.sleepers == map[] && s.nextId == 3
    requires !s.stopped && 0.0 < s.config.budgetMs
    ensures Step(s, HookReturns(2)).st
         == s.(nextId := 4, sleepers := map[3 := s.now + s.config.baseMs],
               routines := map[2 := LoopSleeping(LoopVars(holder, s.now + s.config.budgetMs, s.config.baseMs, 1), 3)])
  {
    hide Undisturbed, SameWork, SameSelf;
  }

  /** The sleep elapses, the pre-check goes out, and the adapter is stopped. */
  function StoppedAtPrecheck(c: Config): seq<Event> {
    [ClockAdvances(c.baseMs), SleepElapses(3), Wakes(2), CallStop(UserStop, false)]
  }

  function StoppedMeanwhile(c: Config, t: Token): State {
    Sleeping(c, t).(now := c.heartbeatMs * 5.0 + c.baseMs, stopped := true, sleepers := map[],
                    routines := map[2 := LoopPrecheck(FirstAttempt(c, t))])
  }

  lemma StoppedRuns(c: Config, t: Token)
    requires c.Valid() && 0.0 < c.budgetMs
    ensures Steps(Sleeping(c, t), StoppedAtPrecheck(c)) == StoppedMeanwhile(c, t)
  {
    hide Step, Steps;
    var s0, es := Sleeping(c, t), StoppedAtPrecheck(c);
    FourSteps(s0, es[0], es[1], es[2], es[3]);
    assert es == [es[0], es[1], es[2], es[3]];
    TimePasses(s0, c.baseMs);
    var s1 := s0.(now := c.heartbeatMs * 5.0 + c.baseMs);
    SleeperWakes(s1, FirstAttempt(c, t));
    var s2 := s1.(sleepers := map[], routines := map[2 := LoopWoken(FirstAttempt(c, t))]);
    PrecheckGoesOut(s2, FirstAttempt(c, t));
    StopLands(s2.(routines := map[2 := LoopPrecheck(FirstAttempt(c, t))]), FirstAttempt(c, t));
  }

  lemma SleeperWakes(s: State, v: LoopVars)
    requires s.routines == map[2 := LoopSleeping(v, 3)] && s.sleepers == map[3 := s.now]
    ensures Step(s, SleepElapses(3)).st == s.(sleepers := map[], routines := map[2 := LoopWoken(v)])
  {
    assert s.sleepers - {3} == map[];
  }

  lemma PrecheckGoesOut(s: State, v: LoopVars)
    requires s.routines == map[2 := LoopWoken(v)] && !s.stopped
    ensures Step(s, Wakes(2)).st == s.(routines := map[2 := LoopPrecheck(v)])
  {
  }

  lemma StopLands(s: State, v: LoopVars)
    requires s.routines == map[2 := LoopPrecheck(v)] && s.sleepers == map[] && !s.stopped
    requires s.hb.field.None? && s.pw.field.None?
    ensures Step(s, CallStop(UserStop, false)).st == s.(stopped := true)
  {
    hide Undisturbed, SameWork, SameSelf;
  }

  /** A pre-check that fails takes the loop back to its head, where a stopped adapter gives up. */
  lemma ExhaustedAtHead(s: State)
    requires s.stopped && !s.terminalFired && 2 in s.routines && s.routines[2].LoopPrecheck?
    ensures Step(s, PrecheckFails(2, false)).fx == [TerminalNotified(ReconnectExhausted)]
  {
    hide Silence, Undisturbed, SameWork, SameSelf;
  }
}
