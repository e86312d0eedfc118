/**
 * A reconnect loop does not give up early: as long as its budget lasts, transient trouble leads to
 * the next attempt.
 */
module ReconnectPersistence {
  import opened Options
  import opened Lifecycle
  import opened LifecycleInvariants
  import opened LifecycleMoves
  import opened LifecycleReplies
  import opened LifecycleRuns
  import opened ReconnectBudget

  /**
   * Why exhaustion is told at all: only to an adapter that is stopped, whose time has run out, that
   * has no budget, or whose routine crashed.
   */
  lemma ExhaustionHasACause(s: State, e: Event)
    requires Inv(s) && TerminalNotified(ReconnectExhausted) in Step(s, e).fx
    ensures Enabled(s, e) && !s.terminalFired
    ensures || e.Crashes?
            || (e.HookReturns? && s.routines[e.routine].LoopStarting? && (s.stopped || s.config.budgetMs <= 0.0))
            || (IsTransient(s, e) && (s.stopped || s.routines[e.routine].vars.deadline <= s.now))
  {
    hide Step, Inv;
    EffectsAreExact(s, e, TerminalNotified(ReconnectExhausted));
  }

  // ----- a run in which every attempt meets trouble

  /** Asleep before the `n`-th attempt, when every reply so far came at once. */
  function Trying(c: Config, t: Token, n: nat): State
    requires c.Valid() && 1 <= n
  {
    var now := c.heartbeatMs * 5.0 + Slept(c, n - 1);
    Sleeping(c, t).(now := now, nextId := n + 3, sleepers := map[n + 2 := now + BackoffAt(c, n)],
      routines := map[2 := LoopSleeping(LoopVars(t.attachmentId, c.heartbeatMs * 5.0 + c.budgetMs, BackoffAt(c, n), n),
                                        n + 2)])
  }

  /** The sleep elapses, the pre-check goes out, and fails. */
  function Troubled(c: Config, n: nat): seq<Event>
    requires c.Valid() && 1 <= n
  {
    [ClockAdvances(BackoffAt(c, n)), SleepElapses(n + 2), Wakes(2), PrecheckFails(2, false)]
  }

  lemma TroubleRuns(c: Config, t: Token, n: nat)
    requires c.Valid() && 1 <= n && Slept(c, n) < c.budgetMs
    ensures Steps(Trying(c, t, n), Troubled(c, n)) == Trying(c, t, n + 1)
  {
    hide Step, Steps, BackoffAt;
    var s0, es := Trying(c, t, n), Troubled(c, n);
    var v := LoopVars(t.attachmentId, c.heartbeatMs * 5.0 + c.budgetMs, BackoffAt(c, n), n);
    FourSteps(s0, es[0], es[1], es[2], es[3]);
    assert es == [es[0], es[1], es[2], es[3]];
    TimePasses(s0, BackoffAt(c, n));
    var s1 := s0.(now := s0.now + BackoffAt(c, n));
    SleepIsOver(s1, v, n + 2);
    var s2 := s1.(sleepers := map[], routines := map[2 := LoopWoken(v)]);
    PrecheckGoesOut(s2, v);
    var s3 := s2.(routines := map[2 := LoopPrecheck(v)]);
    TroubleIsNoted(s3, v);
    NextBackoff(c, n);
    assert s1.now == c.heartbeatMs * 5.0 + Slept(c, n);
  }

  lemma SleepIsOver(s: State, v: LoopVars, id: nat)
    requires s.routines == map[2 := LoopSleeping(v, id)] && s.sleepers == map[id := s.now]
    ensures Step(s, SleepElapses(id)).st == s.(sleepers := map[], routines := map[2 := LoopWoken(v)])
  {
    assert s.sleepers - {id} == map[];
  }

  lemma TroubleIsNoted(s: State, v: LoopVars)
    requires s.routines == map[2 := LoopPrecheck(v)] && s.sleepers == map[] && !s.stopped && s.now < v.deadline
    ensures var b := NextReconnectBackoff(s.config, v.backoff);
      Step(s, PrecheckFails(2, false)).st ==
        s.(routines := map[2 := LoopSleeping(v.(backoff := b, attempt := v.attempt + 1), s.nextId)],
           sleepers := map[s.nextId := s.now + b], nextId := s.nextId + 1)
  {
    hide Step, FallsAsleep, NextReconnectBackoff, Grown;
    TroubleIsSleptOff(s, PrecheckFails(2, false));
    GrownIsNext(s.config, v.backoff);
    var b := NextReconnectBackoff(s.config, v.backoff);
    AsleepAgain(s, Step(s, PrecheckFails(2, false)), v.(backoff := b, attempt := v.attempt + 1));
  }

  lemma AsleepAgain(s: State, t: Out, v: LoopVars)
    requires FallsAsleep(s, t, 2, v) && s.routines.Keys == {2} && s.sleepers == map[]
    ensures t.st == s.(routines := map[2 := LoopSleeping(v, s.nextId)],
                       sleepers := map[s.nextId := s.now + v.backoff], nextId := s.nextId + 1)
  {
    var pc := LoopSleeping(v, s.nextId);
    assert s.routines[2 := pc] == map[2 := pc];
    assert s.sleepers[s.nextId := s.now + v.backoff] == map[s.nextId := s.now + v.backoff];
  }

  lemma NextBackoff(c: Config, n: nat)
    requires c.Valid() && 1 <= n
    ensures BackoffAt(c, n + 1) == NextReconnectBackoff(c, BackoffAt(c, n))
    ensures Slept(c, n) == Slept(c, n - 1) + BackoffAt(c, n)
  {
  }

  lemma FirstTry(c: Config, t: Token)
    requires c.Valid()
    ensures Trying(c, t, 1) == Sleeping(c, t)
  {
  }

  lemma {:induction false} TryingRuns(c: Config, t: Token, n: nat) returns (es: seq<Event>)
    requires c.Valid() && 1 <= n && Slept(c, n - 1) < c.budgetMs
    ensures Run(c, es) == Trying(c, t, n)
  {
    hide Step, Steps, Run, BackoffAt, Slept, Trying;
    if n == 1 {
      NoSleepYet(c);
      FirstTry(c, t);
      AttachRuns(c, t);
      SleepingRuns(c, t);
      es := Attach(t) + Reaped(c);
      RunResumes(c, Attach(t), Reaped(c));
    } else {
      SleptMonotone(c, n - 2, n - 1);
      var before := TryingRuns(c, t, n - 1);
      TroubleRuns(c, t, n - 1);
      es := before + Troubled(c, n - 1);
      RunResumes(c, before, Troubled(c, n - 1));
    }
  }

  lemma NoSleepYet(c: Config)
    requires c.Valid()
    ensures Slept(c, 0) == 0.0
  {
  }

  /** Some run of the adapter makes an `n`-th attempt, and has told nobody of an end by then. */
  ghost predicate Reaches(c: Config, n: nat) {
    exists es: seq<Event>, r: nat ::
      && r in Run(c, es).routines && Attempting(Run(c, es).routines[r]) && Run(c, es).routines[r].vars.attempt == n
      && !Run(c, es).stopped && !Run(c, es).terminalFired
  }

  /** An `n`-th attempt is made in some run if and only if the sleeps before it fit into the budget. */
  lemma AttemptsReachTheBudget(c: Config, n: nat)
    requires c.Valid() && 1 <= n
    ensures Reaches(c, n) <==> Slept(c, n - 1) < c.budgetMs
  {
    hide Run, Slept, BackoffAt;
    if Slept(c, n - 1) < c.budgetMs {
      var t := Token("attachment", "run", 0.0);
      var es := TryingRuns(c, t, n);
      TryingIs(c, t, n);
      assert 2 in Run(c, es).routines;
    }
    if Reaches(c, n) {
      var es, r :| r in Run(c, es).routines && Attempting(Run(c, es).routines[r])
                   && Run(c, es).routines[r].vars.attempt == n;
      AttemptsAreBounded(c, es, r);
    }
  }

  lemma TryingIs(c: Config, t: Token, n: nat)
    requires c.Valid() && 1 <= n
    ensures var s := Trying(c, t, n);
      2 in s.routines && s.routines[2].LoopSleeping? && s.routines[2].vars.attempt == n && !s.stopped
        && !s.terminalFired
  {
  }

  /** With the production timing exactly the attempts 1 to 18 are made. */
  lemma ProductionReaches(c: Config, n: nat)
    requires Production(c) && 1 <= n
    ensures Reaches(c, n) <==> n <= 18
  {
    hide Reaches, Slept;
    AttemptsReachTheBudget(c, n);
    EighteenAttempts(c, n);
  }
}
