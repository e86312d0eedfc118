/** A recovery routine ends: in no run is it resumed more often than its attempts allow, and it is never stuck. */
module ReconnectTermination {
  import opened Options
  import opened Lifecycle
  import opened LifecycleInvariants
  import opened LifecycleRuns
  import opened ReconnectBudget

  // ----- a measure of what a routine still has before it

  function AttemptOf(pc: Routine): nat {
    if Attempting(pc) then pc.vars.attempt else 0
  }

  /** How far a routine is from the end of its attempt. */
  function Rank(pc: Routine): nat {
    match pc
    case LoopStarting(_) => 7
    case LoopSleeping(_, _) => 6
    case LoopWoken(_) => 5
    case LoopPrecheck(_) => 4
    case LoopDescribe(_) | LoopClaiming(_) => 3
    case RebindStarting(_) => 2
    case RebindResuming | LoopAborted(_) | LoopResuming(_) => 1
  }

  /** What a routine has before it when it makes at most `n` attempts. */
  function Left(pc: Routine, n: nat): int {
    (n - AttemptOf(pc)) * 7 + Rank(pc)
  }

  /** The event resumes routine `r`, or lets the sleep elapse that it awaits. */
  predicate ResumesRoutine(s: State, e: Event, r: nat) {
    Enabled(s, e) && r in s.routines &&
    match e
    case HookReturns(q) => q == r
    case SleepElapses(id) => s.routines[r].LoopSleeping? && s.routines[r].sleeper == id
    case Wakes(q) => q == r
    case PrecheckInfo(q, _) => q == r
    case PrecheckFails(q, _) => q == r
    case DescribeReply(q, _) => q == r
    case ReclaimGranted(q, _) => q == r
    case ReclaimFails(q, _) => q == r
    case Crashes(q) => q == r
    case _ => false
  }

  /** Routine `r` is gone, or has less before it than `pc` has. */
  ghost predicate Advanced(t: State, r: nat, pc: Routine, n: nat) {
    r !in t.routines || Left(t.routines[r], n) < Left(pc, n)
  }

  // ----- the routine's own events

  lemma GiveAdvances(s: State, r: nat, reason: Reason)
    ensures r !in Give(Out(s, []), r, reason).st.routines
  {
    hide FireTerminal, Undisturbed, SameWork, SameSelf;
  }

  lemma HeadAdvances(s: State, r: nat, v: LoopVars, pc: Routine, n: nat)
    requires AttemptOf(pc) <= v.attempt
    ensures Advanced(LoopHead(Out(s, []), r, v).st, r, pc, n)
  {
    hide Give, Undisturbed, SameWork, SameSelf;
    GiveAdvances(s, r, ReconnectExhausted);
  }

  lemma RetryAdvances(s: State, r: nat, v: LoopVars, pc: Routine, n: nat)
    requires AttemptOf(pc) <= v.attempt
    ensures Advanced(Retry(Out(s, []), r, v).st, r, pc, n)
  {
    hide LoopHead, NextReconnectBackoff;
    HeadAdvances(s, r, v.(backoff := NextReconnectBackoff(s.config, v.backoff)), pc, n);
  }

  lemma MoveAdvances(s: State, r: nat, next: Routine, pc: Routine, n: nat)
    requires Left(next, n) < Left(pc, n)
    ensures Advanced(SetRoutine(s, r, next), r, pc, n)
  {
  }

  lemma EndAdvances(s: State, r: nat)
    ensures r !in EndRoutine(Out(s, []), r).st.routines && r !in Resume(Out(s, []), r).st.routines
  {
    hide ArmBoth, Undisturbed, SameWork, SameSelf;
  }

  lemma HookAdvances(s: State, r: nat, n: nat)
    requires Inv(s) && Enabled(s, HookReturns(r))
    ensures Advanced(ReturnFromHook(s, r, s.routines[r]).st, r, s.routines[r], n)
  {
    hide LoopHead, Resume, SetRoutine, Repoint, Inv;
    EndAdvances(s, r);
    match s.routines[r]
    case RebindStarting(successor) =>
      RebindHasToken(s, r);
      MoveAdvances(Repoint(s, s.token.value.(runId := successor)), r, RebindResuming, s.routines[r], n);
    case LoopStarting(oldId) =>
      HeadAdvances(s, r, LoopVars(oldId, s.now + s.config.budgetMs, s.config.baseMs, 0), s.routines[r], n);
    case _ =>
  }

  lemma RebindHasToken(s: State, r: nat)
    requires Inv(s) && r in s.routines
    ensures s.token.Some?
  {
  }

  lemma WakeAdvances(s: State, r: nat, n: nat)
    requires Enabled(s, Wakes(r))
    ensures Advanced(Wake(s, r, s.routines[r]).st, r, s.routines[r], n)
  {
    hide EndRoutine, SetRoutine;
    EndAdvances(s, r);
    if s.routines[r].LoopWoken? {
      MoveAdvances(s, r, LoopPrecheck(s.routines[r].vars), s.routines[r], n);
    }
  }

  lemma SleepAdvances(s: State, id: nat, r: nat, n: nat)
    requires r in s.routines && s.routines[r].LoopSleeping? && s.routines[r].sleeper == id
    ensures Advanced(ElapseSleep(s, id).st, r, s.routines[r], n)
  {
    hide Undisturbed, SameWork, SameSelf;
  }

  lemma AttemptAdvances(s: State, e: Event, r: nat, n: nat)
    requires ResumesRoutine(s, e, r)
    requires e.PrecheckInfo? || e.PrecheckFails? || e.DescribeReply? || e.ReclaimGranted? || e.ReclaimFails?
    ensures Advanced(Step(s, e).st, r, s.routines[r], n)
  {
    hide Give, Retry, SetRoutine, Repoint;
    var pc, v := s.routines[r], s.routines[r].vars;
    GiveAdvances(s, r, Destroy);
    GiveAdvances(s, r, Superseded);
    RetryAdvances(s, r, v, pc, n);
    if pc.LoopPrecheck? {
      MoveAdvances(s, r, LoopClaiming(v), pc, n);
      MoveAdvances(s, r, LoopDescribe(v), pc, n);
    } else if e.ReclaimGranted? {
      MoveAdvances(Repoint(s, e.token), r, LoopResuming(v), pc, n);
    }
  }

  lemma CrashAdvances(s: State, r: nat)
    ensures r !in FireTerminal(EndRoutine(Out(s, []), r), ReconnectExhausted).st.routines
  {
    hide Undisturbed, SameWork, SameSelf;
  }

  /** Every event that resumes a routine ends it or strictly lowers what it has before it. */
  lemma RoutineAdvances(s: State, e: Event, r: nat, n: nat)
    requires Inv(s) && ResumesRoutine(s, e, r)
    ensures Advanced(Step(s, e).st, r, s.routines[r], n)
  {
    hide FireTimer, AcceptHeartbeat, ReceiveInfo, FailTick, ReceiveHistory, ReturnFromTick, ReturnFromHook,
         ElapseSleep, Wake, ReceivePrecheck, FailPrecheck, ReceiveDescribe, FailReclaim, Stop, ArmBoth, FireTerminal,
         EndRoutine, SetRoutine, Repoint, Left, Inv;
    match e
    case HookReturns(_) => HookAdvances(s, r, n);
    case SleepElapses(id) => SleepAdvances(s, id, r, n);
    case Wakes(_) => WakeAdvances(s, r, n);
    case Crashes(_) => CrashAdvances(s, r);
    case _ => AttemptAdvances(s, e, r, n);
  }

  // ----- all other events

  /** Routine `r` stands where it stood, or its sleep was aborted. */
  ghost predicate Stands(s: State, t: State, r: nat) {
    r in s.routines && r in t.routines
    && (t.routines[r] == s.routines[r]
        || (s.routines[r].LoopSleeping? && t.routines[r] == LoopAborted(s.routines[r].vars)))
  }

  lemma StandsLeft(s: State, t: State, r: nat, n: nat)
    requires Stands(s, t, r)
    ensures Left(t.routines[r], n) <= Left(s.routines[r], n)
  {
  }

  lemma StopStands(s: State, o: Out, reason: Reason, graceful: bool, r: nat)
    requires Stands(s, o.st, r)
    ensures Stands(s, Stop(o, reason, graceful).st, r)
  {
    hide Undisturbed, SameWork, SameSelf;
  }

  lemma ListenStands(s: State, o: Out, call: ListenerCall, r: nat)
    requires Stands(s, o.st, r) && o.st.reconnecting
    ensures Stands(s, Listen(o, call).st, r) && Listen(o, call).st.reconnecting
  {
    hide Undisturbed, SameWork, SameSelf;
  }

  lemma TerminalStands(s: State, o: Out, reason: Reason, r: nat)
    requires Stands(s, o.st, r)
    ensures Stands(s, FireTerminal(o, reason).st, r)
  {
    hide Undisturbed, SameWork, SameSelf;
  }

  /** While a routine is live no other one is started. */
  lemma RevokeStands(s: State, o: Out, reason: Reason, onRevoked: ListenerCall, reconnects: bool, r: nat)
    requires Stands(s, o.st, r) && o.st.reconnecting
    ensures Stands(s, Revoke(o, reason, onRevoked, reconnects).st, r)
  {
    hide Listen, Stands, Undisturbed, SameWork, SameSelf;
    SameRoutines(s, o, o.(fx := o.fx + [RevokedNotified(reason)]), r);
    ListenStands(s, o.(fx := o.fx + [RevokedNotified(reason)]), onRevoked, r);
  }

  lemma SameRoutines(s: State, o: Out, p: Out, r: nat)
    requires Stands(s, o.st, r) && p.st.routines == o.st.routines
    ensures Stands(s, p.st, r)
  {
  }

  lemma InfoStands(s: State, id: nat, info: Info, onPhase: ListenerCall, onRevoked: ListenerCall, reconnects: bool,
      r: nat)
    requires r in s.routines && s.reconnecting
    ensures Stands(s, ReceiveInfo(s, id, info, onPhase, onRevoked, reconnects).st, r)
  {
    hide Listen, Revoke, FireTerminal, Finish, Stands, Undisturbed, SameWork, SameSelf;
    var s' := s.(pw := s.pw.(backoff := 0.0));
    Itself(s, r);
    var heard := Out(s'.(knownPhase := Some(info.phase)), [PhaseNotified(info.phase)]);
    SameRoutines(s, Out(s, []), heard, r);
    SameRoutines(s, Out(s, []), Out(s', []), r);
    ListenStands(s, heard, onPhase, r);
    var n := NotifyPhase(s', info, onPhase);
    RevokeStands(s, n, Superseded, onRevoked, reconnects, r);
    RevokeStands(s, n, HeartbeatTimeout, onRevoked, reconnects, r);
    TerminalStands(s, n, Destroy, r);
    var o := JudgeInfo(n, info, onRevoked, reconnects);
    SameRoutines(s, o, Finish(o, Watcher, id), r);
  }

  lemma Itself(s: State, r: nat)
    requires r in s.routines
    ensures Stands(s, s, r)
  {
  }

  lemma HistoryStands(s: State, k: LoopKind, id: nat, history: Option<seq<string>>, reconnects: bool, r: nat)
    requires r in s.routines && s.reconnecting
    ensures Stands(s, ReceiveHistory(s, k, id, history, reconnects).st, r)
  {
    hide FireTerminal, FindSuccessor, Stands, Undisturbed, SameWork, SameSelf;
    var o := Out(SetTick(s, k, id, Verdict(true)), []);
    Itself(s, r);
    SameRoutines(s, Out(s, []), o, r);
    TerminalStands(s, o, Destroy, r);
  }

  lemma TickStands(s: State, e: Event, r: nat)
    requires r in s.routines && (e.TimerFires? || e.HeartbeatAccepted? || e.TickFails? || e.TickReturns?)
    ensures Stands(s, Step(s, e).st, r)
  {
    hide Finish, Undisturbed, SameWork, SameSelf;
  }

  lemma PlainStands(s: State, e: Event, r: nat)
    requires r in s.routines && !ResumesRoutine(s, e, r)
    requires e.CallStart? || e.StartReply? || e.SleepElapses? || e.SubclassSleeps? || e.ClockAdvances?
    ensures Stands(s, Step(s, e).st, r)
  {
    hide FireTimer, AcceptHeartbeat, ReceiveInfo, FailTick, ReceiveHistory, ReturnFromTick, ReturnFromHook, Wake,
         ReceivePrecheck, FailPrecheck, ReceiveDescribe, FailReclaim, Stop, FireTerminal, EndRoutine, SetRoutine,
         Repoint, Undisturbed, SameWork, SameSelf;
  }

  /** The live routine is the only one. */
  lemma OnlyRoutine(s: State, r: nat, q: nat)
    requires Inv(s) && r in s.routines && q in s.routines
    ensures q == r
  {
  }

  lemma RoutineIsReconnecting(s: State, r: nat)
    requires Inv(s) && r in s.routines
    ensures s.reconnecting
  {
  }

  /** An event that does not resume a live routine leaves it where it is, or aborts its sleep. */
  lemma OthersStand(s: State, e: Event, r: nat)
    requires Inv(s) && r in s.routines && !ResumesRoutine(s, e, r)
    ensures Stands(s, Step(s, e).st, r)
  {
    hide FireTimer, AcceptHeartbeat, ReceiveInfo, FailTick, ReceiveHistory, ReturnFromTick, ReturnFromHook,
         ElapseSleep, Wake, ReceivePrecheck, FailPrecheck, ReceiveDescribe, FailReclaim, Stop, ArmBoth, FireTerminal,
         EndRoutine, SetRoutine, Repoint, Stands, Inv;
    Itself(s, r);
    if Enabled(s, e) {
      RoutineIsReconnecting(s, r);
      match e
      case CallStop(reason, graceful) => StopStands(s, Out(s, []), reason, graceful, r);
      case WatcherInfo(id, info, onPhase, onRevoked, reconnects) =>
        InfoStands(s, id, info, onPhase, onRevoked, reconnects, r);
      case HistoryReply(k, id, history, reconnects) => HistoryStands(s, k, id, history, reconnects, r);
      case TimerFires(_, _) | HeartbeatAccepted(_) | TickFails(_, _, _) | TickReturns(_, _) => TickStands(s, e, r);
      case CallStart | StartReply(_) | SleepElapses(_) | SubclassSleeps(_) | ClockAdvances(_) => PlainStands(s, e, r);
      case _ => OnlyRoutine(s, r, e.routine);
    }
  }

  // ----- whole runs

  /** How often routine `r` is resumed from `s` on, until it ends. */
  ghost function Resumed(s: State, es: seq<Event>, r: nat): nat
    decreases |es|
  {
    if es == [] || r !in s.routines then 0
    else (if ResumesRoutine(s, es[0], r) then 1 else 0) + Resumed(Step(s, es[0]).st, es[1..], r)
  }

  /** No attempt of any run has a number above `n`. */
  ghost predicate AttemptsUpTo(c: Config, n: nat) {
    forall es, r :: r in Run(c, es).routines ==> AttemptOf(Run(c, es).routines[r]) <= n
  }

  lemma LeftIsNatural(pc: Routine, n: nat)
    requires AttemptOf(pc) <= n
    ensures 1 <= Left(pc, n) <= 7 * n + 7
  {
  }

  lemma {:induction false} ResumptionsAreBounded(c: Config, es: seq<Event>, fs: seq<Event>, r: nat, n: nat)
    requires AttemptsUpTo(c, n) && r in Run(c, es).routines
    ensures Resumed(Run(c, es), fs, r) <= Left(Run(c, es).routines[r], n) <= 7 * n + 7
    decreases |fs|
  {
    hide Step, Run, Left, Inv, Advanced, Stands;
    var s := Run(c, es);
    LeftIsNatural(s.routines[r], n);
    if fs != [] {
      var e := fs[0];
      RunKeepsInv(c, es);
      RunSnoc(c, es, e);
      var t := Run(c, es + [e]);
      if ResumesRoutine(s, e, r) {
        RoutineAdvances(s, e, r, n);
        AdvancedLeft(t, r, s.routines[r], n);
      } else {
        OthersStand(s, e, r);
        StandsIn(s, t, r);
        StandsLeft(s, t, r, n);
      }
      if r in t.routines {
        ResumptionsAreBounded(c, es + [e], fs[1..], r, n);
      }
    }
  }

  lemma AdvancedLeft(t: State, r: nat, pc: Routine, n: nat)
    requires Advanced(t, r, pc, n)
    ensures r in t.routines ==> Left(t.routines[r], n) < Left(pc, n)
  {
  }

  lemma StandsIn(s: State, t: State, r: nat)
    requires Stands(s, t, r)
    ensures r in t.routines
  {
  }

  /** The most attempts that the budget can cover. */
  function Limit(c: Config): nat
    requires c.Valid()
  {
    if c.budgetMs < 0.0 then 0 else QuotientIsNatural(c.budgetMs, c.baseMs); (c.budgetMs / c.baseMs).Floor + 1
  }

  lemma QuotientIsNatural(a: real, b: real)
    requires 0.0 <= a && 0.0 < b
    ensures 0.0 <= a / b
  {
  }

  lemma LimitBounds(c: Config)
    requires c.Valid()
    ensures AttemptsUpTo(c, Limit(c))
  {
    hide Run;
    forall es, r | r in Run(c, es).routines ensures AttemptOf(Run(c, es).routines[r]) <= Limit(c) {
      if Attempting(Run(c, es).routines[r]) {
        AttemptsAreBounded(c, es, r);
        WithinLimit(c, Run(c, es).routines[r].vars.attempt);
      }
    }
  }

  lemma WithinLimit(c: Config, n: nat)
    requires c.Valid() && 1 <= n && n as real < c.budgetMs / c.baseMs + 1.0
    ensures n <= Limit(c)
  {
    var q := c.budgetMs / c.baseMs;
    assert (n - 1) as real < q;
    assert q * c.baseMs == c.budgetMs;
    assert 0.0 <= q;
    assert 0.0 <= q * c.baseMs;
  }

  /**
   * Termination: however a run goes on, a recovery routine is resumed at most seven times for each attempt the budget
   * covers, and seven times more, before it ends.
   */
  lemma RecoveryTerminates(c: Config, es: seq<Event>, fs: seq<Event>, r: nat)
    requires c.Valid() && r in Run(c, es).routines
    ensures Resumed(Run(c, es), fs, r) <= 7 * Limit(c) + 7
  {
    hide Run, Resumed;
    LimitBounds(c);
    ResumptionsAreBounded(c, es, fs, r, Limit(c));
  }

  /** With the production timing that is 133 times. */
  lemma ProductionTerminates(c: Config, es: seq<Event>, fs: seq<Event>, r: nat)
    requires Production(c) && r in Run(c, es).routines
    ensures Resumed(Run(c, es), fs, r) <= 133
  {
    hide Run, Resumed;
    forall gs, q | q in Run(c, gs).routines ensures AttemptOf(Run(c, gs).routines[q]) <= 18 {
      if Attempting(Run(c, gs).routines[q]) {
        AtMostEighteen(c, gs, q);
      }
    }
    ResumptionsAreBounded(c, es, fs, r, 18);
  }

  /** And it is never stuck: some reply, return or elapsed sleep resumes it, if need be after time has passed. */
  lemma RoutineCanGoOn(s: State, r: nat) returns (ms: real, e: Event)
    requires Inv(s) && r in s.routines
    ensures 0.0 <= ms && ResumesRoutine(Step(s, ClockAdvances(ms)).st, e, r)
  {
    hide Step, Inv;
    ms := 0.0;
    match s.routines[r] {
      case LoopSleeping(_, sleeper) =>
        var due := SleeperDue(s, r);
        ms, e := if due <= s.now then 0.0 else due - s.now, SleepElapses(sleeper);
      case LoopWoken(_) | LoopAborted(_) => e := Wakes(r);
      case LoopPrecheck(_) => e := PrecheckFails(r, false);
      case LoopDescribe(_) => e := DescribeReply(r, true);
      case LoopClaiming(_) => e := ReclaimFails(r, false);
      case RebindStarting(_) | RebindResuming | LoopStarting(_) | LoopResuming(_) => e := HookReturns(r);
    }
    TimePasses(s, ms);
  }

  lemma SleeperDue(s: State, r: nat) returns (due: real)
    requires Inv(s) && r in s.routines && s.routines[r].LoopSleeping?
    ensures s.routines[r].sleeper in s.sleepers && due == s.sleepers[s.routines[r].sleeper]
  {
    due := s.sleepers[s.routines[r].sleeper];
  }
}
