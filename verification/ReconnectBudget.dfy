/** The reconnect loop keeps to its elapsed-time budget, in every run of the lifecycle. */
module ReconnectBudget {
  import opened Options
  import opened Lifecycle
  import opened LifecycleInvariants

  /** The backoff before the `n`-th attempt. */
  function BackoffAt(c: Config, n: nat): (b: real)
    requires c.Valid() && 1 <= n
    ensures c.baseMs <= b <= c.maxMs
  {
    if n == 1 then c.baseMs
    else
      GrowsByFactor(c, BackoffAt(c, n - 1));
      NextReconnectBackoff(c, BackoffAt(c, n - 1))
  }

  lemma GrowsByFactor(c: Config, b: real)
    requires c.Valid() && 0.0 <= b
    ensures b <= b * c.factor
  {
    assert 0.0 <= b * (c.factor - 1.0);
  }

  /** The time slept before the `n`-th attempt goes out. */
  function Slept(c: Config, n: nat): real
    requires c.Valid()
  {
    if n == 0 then 0.0 else Slept(c, n - 1) + BackoffAt(c, n)
  }

  /** The loop variables of an attempt that the budget still covered when it began. */
  ghost predicate Covered(c: Config, v: LoopVars) {
    && c.Valid() && 1 <= v.attempt
    && v.backoff == BackoffAt(c, v.attempt)
    && Slept(c, v.attempt - 1) < c.budgetMs
  }

  function Began(c: Config, v: LoopVars): real {
    v.deadline - c.budgetMs
  }

  ghost predicate Paced(s: State, r: nat) {
    r in s.routines ==>
      match s.routines[r]
      case LoopSleeping(v, sleeper) =>
        Covered(s.config, v)
          && (sleeper in s.sleepers ==> Began(s.config, v) + Slept(s.config, v.attempt) <= s.sleepers[sleeper])
      case LoopWoken(v) => Covered(s.config, v) && Began(s.config, v) + Slept(s.config, v.attempt) <= s.now
      case LoopPrecheck(v) => Covered(s.config, v) && Began(s.config, v) + Slept(s.config, v.attempt) <= s.now
      case LoopDescribe(v) => Covered(s.config, v) && Began(s.config, v) + Slept(s.config, v.attempt) <= s.now
      case LoopClaiming(v) => Covered(s.config, v) && Began(s.config, v) + Slept(s.config, v.attempt) <= s.now
      case LoopAborted(v) => Covered(s.config, v)
      case LoopResuming(v) => Covered(s.config, v)
      case _ => true
  }

  ghost predicate Pace(s: State) {
    forall r :: Paced(s, r)
  }

  // ----- one step

  lemma TerminalPaces(o: Out, reason: Reason)
    requires Pace(o.st)
    ensures Pace(FireTerminal(o, reason).st)
  {
    hide Slept, BackoffAt;
    forall r ensures Paced(FireTerminal(o, reason).st, r) { assert Paced(o.st, r); }
  }

  lemma StopPaces(o: Out, reason: Reason, graceful: bool)
    requires Pace(o.st)
    ensures Pace(Stop(o, reason, graceful).st)
  {
    hide Slept, BackoffAt;
    forall r ensures Paced(Stop(o, reason, graceful).st, r) { assert Paced(o.st, r); }
  }

  lemma ListenPaces(o: Out, call: ListenerCall)
    requires Pace(o.st)
    ensures Pace(Listen(o, call).st)
  {
    hide Slept, BackoffAt, Stop;
    if call.Stops? { StopPaces(o, call.reason, call.graceful); }
  }

  lemma ReconnectPaces(o: Out, reason: Reason, successor: Option<string>, reconnects: bool)
    requires Pace(o.st)
    ensures Pace(FireTerminalOrReconnect(o, reason, successor, reconnects).st)
  {
    hide Slept, BackoffAt, FireTerminal;
    TerminalPaces(o, reason);
    var s := o.st.(reconnecting := true, hb := Disarm(o.st.hb), pw := Disarm(o.st.pw));
    SamePace(o.st, s);
    TerminalPaces(o.(st := s), ReconnectExhausted);
    var t := FireTerminalOrReconnect(o, reason, successor, reconnects).st;
    forall r ensures Paced(t, r) {
      assert Paced(o.st, r) && Paced(s, r) && Paced(FireTerminal(o.(st := s), ReconnectExhausted).st, r);
    }
  }

  lemma SamePace(s: State, t: State)
    requires Pace(s) && t.routines == s.routines && t.sleepers == s.sleepers && t.config == s.config && t.now == s.now
    ensures Pace(t)
  {
    hide Slept, BackoffAt;
    forall r ensures Paced(t, r) { assert Paced(s, r); }
  }

  lemma InfoPaces(s: State, id: nat, info: Info, onPhase: ListenerCall, onRevoked: ListenerCall, reconnects: bool)
    requires Pace(s)
    ensures Pace(ReceiveInfo(s, id, info, onPhase, onRevoked, reconnects).st)
  {
    hide Pace, Stop, FireTerminal, FireTerminalOrReconnect, Finish;
    var s' := s.(pw := s.pw.(backoff := 0.0));
    SamePace(s, s');
    SamePace(s', s'.(knownPhase := Some(info.phase)));
    ListenPaces(Out(s'.(knownPhase := Some(info.phase)), [PhaseNotified(info.phase)]), onPhase);
    var n := NotifyPhase(s', info, onPhase);
    TerminalPaces(n, Destroy);
    var a, b := n.(fx := n.fx + [RevokedNotified(Superseded)]), n.(fx := n.fx + [RevokedNotified(HeartbeatTimeout)]);
    ListenPaces(a, onRevoked);
    ListenPaces(b, onRevoked);
    ReconnectPaces(Listen(a, onRevoked), Superseded, None, reconnects);
    ReconnectPaces(Listen(b, onRevoked), HeartbeatTimeout, None, reconnects);
    FinishPaces(JudgeInfo(n, info, onRevoked, reconnects), Watcher, id);
  }

  lemma FinishPaces(o: Out, k: LoopKind, id: nat)
    requires Pace(o.st)
    ensures Pace(Finish(o, k, id).st)
  {
    hide Pace;
    SamePace(o.st, Finish(o, k, id).st);
  }

  lemma HeadPaces(s: State, r: nat, v: LoopVars)
    requires Inv(s) && Pace(s) && s.config.Valid() && v.backoff == BackoffAt(s.config, v.attempt + 1)
    requires Began(s.config, v) + Slept(s.config, v.attempt) <= s.now
    ensures Pace(LoopHead(Out(s, []), r, v).st)
  {
    hide FireTerminal;
    TerminalPaces(Out(s, []), ReconnectExhausted);
    var t := LoopHead(Out(s, []), r, v).st;
    forall q ensures Paced(t, q) {
      assert Paced(s, q) && Paced(FireTerminal(Out(s, []), ReconnectExhausted).st, q);
      if q == r && !s.stopped && s.now < v.deadline {
        assert Slept(s.config, v.attempt + 1) == Slept(s.config, v.attempt) + BackoffAt(s.config, v.attempt + 1);
      }
    }
  }

  lemma RetryPaces(s: State, r: nat, v: LoopVars)
    requires Inv(s) && Pace(s) && Covered(s.config, v) && Began(s.config, v) + Slept(s.config, v.attempt) <= s.now
    ensures Pace(Retry(Out(s, []), r, v).st)
  {
    hide LoopHead;
    HeadPaces(s, r, v.(backoff := NextReconnectBackoff(s.config, v.backoff)));
  }

  lemma GivePaces(s: State, r: nat, reason: Reason)
    requires Pace(s)
    ensures Pace(Give(Out(s, []), r, reason).st)
  {
    hide FireTerminal;
    TerminalPaces(Out(s, []), reason);
    forall q ensures Paced(Give(Out(s, []), r, reason).st, q) {
      assert Paced(FireTerminal(Out(s, []), reason).st, q);
    }
  }

  lemma MovePaces(s: State, r: nat, pc: Routine)
    requires Pace(s)
    requires pc == RebindResuming || ((pc.LoopPrecheck? || pc.LoopDescribe? || pc.LoopClaiming? || pc.LoopResuming?)
             && Covered(s.config, pc.vars) && Began(s.config, pc.vars) + Slept(s.config, pc.vars.attempt) <= s.now)
    ensures Pace(SetRoutine(s, r, pc))
  {
    forall q ensures Paced(SetRoutine(s, r, pc), q) { assert Paced(s, q); }
  }

  lemma EndPaces(s: State, r: nat)
    requires Pace(s)
    ensures Pace(EndRoutine(Out(s, []), r).st) && Pace(Resume(Out(s, []), r).st)
  {
    hide Covered, Slept, BackoffAt, Undisturbed, SameWork, SameSelf;
    forall q ensures Paced(EndRoutine(Out(s, []), r).st, q) { assert Paced(s, q); }
    forall q ensures Paced(Resume(Out(s, []), r).st, q) { assert Paced(s, q); }
  }

  lemma HookPaces(s: State, r: nat)
    requires Inv(s) && Pace(s) && s.config.Valid() && Enabled(s, HookReturns(r))
    ensures Pace(ReturnFromHook(s, r, s.routines[r]).st)
  {
    hide Pace, LoopHead, Resume, SetRoutine, Repoint;
    EndPaces(s, r);
    match s.routines[r]
    case RebindStarting(successor) =>
      RepointPaces(s, s.token.value.(runId := successor));
      MovePaces(Repoint(s, s.token.value.(runId := successor)), r, RebindResuming);
    case LoopStarting(oldId) =>
      HeadPaces(s, r, LoopVars(oldId, s.now + s.config.budgetMs, s.config.baseMs, 0));
    case _ =>
  }

  lemma RepointPaces(s: State, token: Token)
    requires Pace(s)
    ensures Pace(Repoint(s, token))
  {
    hide Pace;
    SamePace(s, Repoint(s, token));
  }

  lemma AttemptPaces(s: State, e: Event)
    requires Inv(s) && Pace(s) && Enabled(s, e)
    requires e.PrecheckInfo? || e.PrecheckFails? || e.DescribeReply? || e.ReclaimFails?
    ensures Pace(Step(s, e).st)
  {
    hide Pace, Covered, Give, Retry, SetRoutine, Inv, Slept;
    var r := e.routine;
    var v := s.routines[r].vars;
    AttemptIsPaced(s, r);
    RetryPaces(s, r, v);
    GivePaces(s, r, Destroy);
    GivePaces(s, r, Superseded);
    MovePaces(s, r, LoopClaiming(v));
    MovePaces(s, r, LoopDescribe(v));
  }

  lemma AttemptIsPaced(s: State, r: nat)
    requires Pace(s) && r in s.routines
    requires s.routines[r].LoopPrecheck? || s.routines[r].LoopDescribe? || s.routines[r].LoopClaiming?
    ensures var v := s.routines[r].vars;
      Covered(s.config, v) && Began(s.config, v) + Slept(s.config, v.attempt) <= s.now
  {
    hide Covered, Slept;
    assert Paced(s, r);
  }

  lemma ClaimPaces(s: State, e: Event)
    requires Inv(s) && Pace(s) && Enabled(s, e) && e.ReclaimGranted?
    ensures Pace(Step(s, e).st)
  {
    hide Pace, Covered, SetRoutine, Repoint, Inv, Slept;
    var v := s.routines[e.routine].vars;
    AttemptIsPaced(s, e.routine);
    RepointPaces(s, e.token);
    RepointSame(s, e.token);
    MovePaces(Repoint(s, e.token), e.routine, LoopResuming(v));
  }

  lemma RepointSame(s: State, token: Token)
    ensures Repoint(s, token).config == s.config && Repoint(s, token).now == s.now
  {
  }

  lemma WakePaces(s: State, r: nat)
    requires Inv(s) && Pace(s) && Enabled(s, Wakes(r))
    ensures Pace(Wake(s, r, s.routines[r]).st)
  {
    assert Paced(s, r);
    hide Pace;
    EndPaces(s, r);
    if s.routines[r].LoopWoken? { MovePaces(s, r, LoopPrecheck(s.routines[r].vars)); }
  }

  /** Timers never fire early: a routine whose sleep has elapsed really waited that long. */
  lemma SleepPaces(s: State, e: Event)
    requires Inv(s) && Pace(s) && (e.SleepElapses? || e.SubclassSleeps? || e.ClockAdvances?)
    ensures Pace(Step(s, e).st)
  {
    hide FireTimer, AcceptHeartbeat, ReceiveInfo, FailTick, ReceiveHistory, ReturnFromTick, ReturnFromHook, Wake,
         ReceivePrecheck, FailPrecheck, ReceiveDescribe, FailReclaim, FireTerminal, EndRoutine, Stop, ArmBoth,
         Covered, Slept, BackoffAt, Undisturbed, SameWork, SameSelf;
    forall r ensures Paced(Step(s, e).st, r) { assert Paced(s, r); }
  }

  lemma StartPaces(s: State, reply: Option<Token>)
    requires Pace(s) && Enabled(s, StartReply(reply))
    ensures Pace(Step(s, StartReply(reply)).st)
  {
    hide Pace, Undisturbed, SameWork, SameSelf;
    SamePace(s, Step(s, StartReply(reply)).st);
  }

  lemma StepKeepsPace(s: State, e: Event)
    requires Inv(s) && Pace(s) && s.config.Valid()
    ensures Pace(Step(s, e).st)
  {
    hide Pace, FireTimer, AcceptHeartbeat, ReceiveInfo, FailTick, ReceiveHistory, ReturnFromTick, ReturnFromHook,
         Wake, ReceivePrecheck, FailPrecheck, ReceiveDescribe, FailReclaim, FireTerminal, EndRoutine, Stop,
         ElapseSleep, ArmBoth, SetRoutine, Repoint, Inv;
    if Enabled(s, e) {
      match e
      case CallStart => SamePace(s, Step(s, e).st);
      case StartReply(reply) => StartPaces(s, reply);
      case CallStop(reason, graceful) => StopPaces(Out(s, []), reason, graceful);
      case WatcherInfo(id, info, onPhase, onRevoked, reconnects) =>
        InfoPaces(s, id, info, onPhase, onRevoked, reconnects);
      case HistoryReply(k, id, history, reconnects) => HistoryPaces(s, k, id, history, reconnects);
      case SleepElapses(_) | SubclassSleeps(_) | ClockAdvances(_) => SleepPaces(s, e);
      case HookReturns(r) => HookPaces(s, r);
      case Wakes(r) => WakePaces(s, r);
      case Crashes(r) =>
        EndPaces(s, r);
        TerminalPaces(EndRoutine(Out(s, []), r), ReconnectExhausted);
      case TimerFires(k, id) => TickPaces(s, k, id, true);
      case HeartbeatAccepted(id) => TickPaces(s, Heartbeat, id, true);
      case TickFails(k, id, terminal) => TickPaces(s, k, id, terminal);
      case TickReturns(k, id) => TickPaces(s, k, id, s.LoopOf(k).ticks[id].handled);
      case ReclaimGranted(_, _) => ClaimPaces(s, e);
      case _ => AttemptPaces(s, e);
    }
  }

  lemma TickPaces(s: State, k: LoopKind, id: nat, b: bool)
    requires Pace(s)
    ensures Pace(FireTimer(s, k, id).st) && Pace(FailTick(s, k, id, b).st)
    ensures Pace(ReturnFromTick(s, k, id, b).st) && Pace(AcceptHeartbeat(s, id).st)
  {
    hide Pace, Finish, SameWork, NextTickBackoff;
    SamePace(s, FireTimer(s, k, id).st);
    SamePace(s, FailTick(s, k, id, b).st);
    SamePace(s, ReturnFromTick(s, k, id, b).st);
    SamePace(s, AcceptHeartbeat(s, id).st);
  }

  lemma HistoryPaces(s: State, k: LoopKind, id: nat, history: Option<seq<string>>, reconnects: bool)
    requires Pace(s)
    ensures Pace(ReceiveHistory(s, k, id, history, reconnects).st)
  {
    hide Pace, FireTerminal, FireTerminalOrReconnect, FindSuccessor;
    var o := Out(SetTick(s, k, id, Verdict(true)), []);
    SamePace(s, o.st);
    ReconnectPaces(o, ContinuedAsNew, FindSuccessor(history), reconnects);
    TerminalPaces(o, Destroy);
  }

  lemma StepKeepsConfig(s: State, e: Event)
    ensures Step(s, e).st.config == s.config
  {
    hide FireTerminal, FireTerminalOrReconnect, Give, LoopHead, Resume, Stop, NotifyPhase, JudgeInfo, ArmBoth,
         SameWork, Finish;
    assert true;
  }

  lemma ClockGoesOn(s: State, e: Event)
    ensures s.now <= Step(s, e).st.now
  {
    hide FireTerminal, FireTerminalOrReconnect, Give, LoopHead, Resume, Stop, NotifyPhase, JudgeInfo, ArmBoth,
         SameWork, Finish;
    assert true;
  }

  lemma {:induction false} RunPaces(c: Config, es: seq<Event>)
    requires c.Valid()
    ensures Pace(Run(c, es)) && Run(c, es).config == c
  {
    if es != [] {
      var before := es[..|es| - 1];
      RunPaces(c, before);
      RunKeepsInv(c, before);
      StepKeepsPace(Run(c, before), es[|es| - 1]);
      StepKeepsConfig(Run(c, before), es[|es| - 1]);
    }
  }

  // ----- the bound

  lemma {:induction false} SleptAtLeast(c: Config, n: nat)
    requires c.Valid()
    ensures c.baseMs * n as real <= Slept(c, n)
  {
    if n > 0 {
      SleptAtLeast(c, n - 1);
      assert c.baseMs * n as real == c.baseMs * (n - 1) as real + c.baseMs;
    }
  }

  /** In every run, whatever the replies, an attempt is made only while the sleeps before it fit into the budget, so
    there are never more than `budget / base + 1` of them.
   */
  lemma AttemptsAreBounded(c: Config, es: seq<Event>, r: nat)
    requires c.Valid() && r in Run(c, es).routines && Attempting(Run(c, es).routines[r])
    ensures var n := Run(c, es).routines[r].vars.attempt;
            1 <= n && Slept(c, n - 1) < c.budgetMs && n as real < c.budgetMs / c.baseMs + 1.0
  {
    hide Run, Slept, BackoffAt;
    RunPaces(c, es);
    assert Paced(Run(c, es), r);
    WithinBudget(c, Run(c, es).routines[r].vars.attempt);
  }

  lemma WithinBudget(c: Config, n: nat)
    requires c.Valid() && 1 <= n && Slept(c, n - 1) < c.budgetMs
    ensures n as real < c.budgetMs / c.baseMs + 1.0
  {
    SleptAtLeast(c, n - 1);
    DivideOut(c.baseMs, (n - 1) as real, c.budgetMs);
  }

  lemma AtMostEighteen(c: Config, es: seq<Event>, r: nat)
    requires Production(c) && r in Run(c, es).routines && Attempting(Run(c, es).routines[r])
    ensures 1 <= Run(c, es).routines[r].vars.attempt <= 18
  {
    hide Run, Slept, BackoffAt;
    AttemptsAreBounded(c, es, r);
    EighteenAttempts(c, Run(c, es).routines[r].vars.attempt);
  }

  predicate Attempting(pc: Routine) {
    !pc.RebindStarting? && !pc.RebindResuming? && !pc.LoopStarting?
  }

  lemma DivideOut(base: real, n: real, budget: real)
    requires 0.0 < base && base * n < budget
    ensures n < budget / base
  {
    assert (budget / base) * base == budget;
    assert (budget / base - n) * base > 0.0;
  }

  /** The production timing of `RECONNECT_*`. */
  predicate Production(c: Config) {
    c.baseMs == 10000.0 && c.maxMs == 60000.0 && c.budgetMs == 900000.0 && c.factor == 1.5 && 0.0 < c.heartbeatMs
  }

  lemma ProductionRamp(c: Config)
    requires Production(c)
    ensures BackoffAt(c, 6) == 60000.0 && Slept(c, 5) == 131875.0
  {
    assert BackoffAt(c, 2) == 15000.0;
    assert BackoffAt(c, 3) == 22500.0;
    assert BackoffAt(c, 4) == 33750.0;
    assert BackoffAt(c, 5) == 50625.0;
    assert Slept(c, 1) == 10000.0;
    assert Slept(c, 2) == 25000.0;
    assert Slept(c, 3) == 47500.0;
    assert Slept(c, 4) == 81250.0;
  }

  lemma {:induction false} ProductionPlateau(c: Config, n: nat)
    requires Production(c) && 5 <= n
    ensures BackoffAt(c, n + 1) == 60000.0 && Slept(c, n) == 131875.0 + 60000.0 * (n - 5) as real
  {
    ProductionRamp(c);
    if n > 5 { ProductionPlateau(c, n - 1); }
  }

  /** With the production constants a reconnect makes at most 18 attempts, and the budget does allow the 18th. */
  lemma EighteenAttempts(c: Config, n: nat)
    requires Production(c) && 1 <= n
    ensures Slept(c, n - 1) < c.budgetMs <==> n <= 18
  {
    if n > 5 { ProductionPlateau(c, n - 1); } else {
      ProductionRamp(c);
      SleptMonotone(c, n - 1, 5);
    }
  }

  lemma {:induction false} SleptMonotone(c: Config, m: nat, n: nat)
    requires c.Valid() && m <= n
    ensures Slept(c, m) <= Slept(c, n)
  {
    if m < n { SleptMonotone(c, m, n - 1); }
  }
}
