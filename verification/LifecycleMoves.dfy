/** How the events of a recovery leave the adapter: each as an equation between the fields before and after. */
module LifecycleMoves {
  import opened Options
  import opened Lifecycle
  import opened LifecycleInvariants
  import opened LifecycleReplies

  // ----- a recovery begins

  /** A timer may be left over that `field` no longer names; without doubled loops there is none. */
  predicate Disarmed(l: Loop, before: Loop) {
    && l.field == None && l.ticks == before.ticks && l.backoff == before.backoff
    && l.armed.Keys == before.armed.Keys - (if before.field.Some? then {before.field.value} else {})
    && forall id <- l.armed :: l.armed[id] == before.armed[id]
  }

  predicate DisarmedOrNot(l: Loop, before: Loop) {
    if before.field.Some? then Disarmed(l, before) else l == before
  }

  /** From `s` to `t` this routine began, under a number of its own, and took both timers. */
  predicate BeganRecovery(s: State, t: State, pc: Routine) {
    && t.reconnecting && !t.stopped && !t.terminalFired
    && t.routines == map[s.nextId := pc] && t.nextId == s.nextId + 1
    && t.sleepers == s.sleepers && t.token == s.token && t.pinned == s.pinned && t.now == s.now
  }

  lemma FreeHasNoRoutine(s: State)
    requires Inv(s) && !s.reconnecting
    ensures s.routines == map[]
  {
    assert s.routines.Keys == {};
  }

  lemma ReconnectBegins(o: Out, reason: Reason, successor: Option<string>)
    requires Unhindered(o.st) && o.st.token.Some? && o.st.pinned.Some? && o.st.routines == map[]
    ensures var t := FireTerminalOrReconnect(o, reason, successor, true);
      && BeganRecovery(o.st, t.st, if reason == ContinuedAsNew && successor.Some? then RebindStarting(successor.value)
                                   else LoopStarting(o.st.token.value.attachmentId))
      && Disarmed(t.st.hb, o.st.hb) && Disarmed(t.st.pw, o.st.pw) && t.fx == o.fx
      && t.st.knownPhase == o.st.knownPhase
  {
    hide FireTerminal, Undisturbed, SameWork, SameSelf;
  }

  /**
   * A reply that takes the lease away from a running adapter whose listeners stay quiet starts the reconnect loop under
   * the old attachment id, if the subclass reconnects; otherwise it is the adapter's end, for that reason.
   */
  lemma RevocationIsAnswered(s: State, e: Event, x: Reason)
    requires Inv(s) && Enabled(s, e) && Revokes(s, e, x) && Unhindered(s)
    requires !PhaseStops(s, e) && e.onRevoked.Quiet?
    ensures s.token.Some? && RevokedNotified(x) in Step(s, e).fx
    ensures var t := Step(s, e);
      if e.reconnects then
        && BeganRecovery(s, t.st, LoopStarting(s.token.value.attachmentId))
        && (forall y :: TerminalNotified(y) !in t.fx)
        && Disarmed(t.st.hb, s.hb) && e.id !in t.st.pw.ticks && t.st.knownPhase == Some(e.info.phase)
      else t.st.terminalFired && t.st.stopped && !t.st.reconnecting && TerminalNotified(x) in t.fx
  {
    hide Step, Inv, Enabled;
    EffectsAreExact(s, e, RevokedNotified(x));
    EffectsAreExact(s, e, TerminalNotified(x));
    TickIsAttached(s, e);
    FreeHasNoRoutine(s);
    RevocationMoves(s, e, x);
    if e.reconnects {
      forall y ensures TerminalNotified(y) !in Step(s, e).fx {
        EffectsAreExact(s, e, TerminalNotified(y));
        RevokedForOne(s, e, x, y);
      }
    } else {
      RevokedForGood(s, e, x);
    }
  }

  lemma RevokedForOne(s: State, e: Event, x: Reason, y: Reason)
    requires Enabled(s, e) && Revokes(s, e, x) && e.reconnects
    ensures !Emits(s, e, TerminalNotified(y)) || (e.info.phase == Gone && !Foreign(s, e.info))
    ensures !(e.info.phase == Gone && !Foreign(s, e.info))
  {
  }

  lemma RevokedForGood(s: State, e: Event, x: Reason)
    requires Enabled(s, e) && Revokes(s, e, x) && Unhindered(s) && !PhaseStops(s, e) && e.onRevoked.Quiet?
    requires !e.reconnects
    ensures Emits(s, e, TerminalNotified(x))
  {
  }

  lemma RevocationMoves(s: State, e: Event, x: Reason)
    requires Inv(s) && Enabled(s, e) && Revokes(s, e, x) && Unhindered(s) && s.routines == map[]
    requires !PhaseStops(s, e) && e.onRevoked.Quiet? && s.token.Some? && s.pinned.Some?
    ensures var t := Step(s, e).st;
      if e.reconnects then
        && BeganRecovery(s, t, LoopStarting(s.token.value.attachmentId))
        && Disarmed(t.hb, s.hb) && e.id !in t.pw.ticks && t.knownPhase == Some(e.info.phase)
      else t.terminalFired && t.stopped && !t.reconnecting
  {
    hide NotifyPhase, FireTerminalOrReconnect, Finish, Inv, Undisturbed, SameWork, SameSelf, Disarmed, BeganRecovery;
    var s' := s.(pw := s.pw.(backoff := 0.0));
    var n := NotifyPhase(s', e.info, e.onPhase);
    QuietNotify(s', e.info, e.onPhase);
    var p := n.(fx := n.fx + [RevokedNotified(x)]);
    var o := FireTerminalOrReconnect(p, x, None, e.reconnects);
    assert JudgeInfo(n, e.info, e.onRevoked, e.reconnects) == o;
    if e.reconnects {
      ReconnectBegins(p, x, None);
      AfterRevocation(s, p.st, o, e.id);
    } else {
      RevocationEnds(p, x);
      FinishStops(o, e.id);
    }
  }

  lemma QuietNotify(s: State, info: Info, onPhase: ListenerCall)
    requires !(onPhase.Stops? && s.knownPhase != Some(info.phase))
    ensures NotifyPhase(s, info, onPhase).st == s.(knownPhase := Some(info.phase))
  {
    hide Undisturbed, SameWork, SameSelf;
  }

  lemma RevocationEnds(p: Out, x: Reason)
    requires Unhindered(p.st)
    ensures var o := FireTerminalOrReconnect(p, x, None, false).st; o.terminalFired && o.stopped && !o.reconnecting
  {
    hide Disarm, Undisturbed, SameWork, SameSelf;
  }

  lemma FinishStops(o: Out, id: nat)
    requires o.st.stopped
    ensures var t := Finish(o, Watcher, id).st;
      t.terminalFired == o.st.terminalFired && t.stopped && t.reconnecting == o.st.reconnecting
  {
    hide Undisturbed, SameWork, SameSelf;
  }

  lemma AfterRevocation(s: State, p: State, o: Out, id: nat)
    requires p == s.(pw := s.pw.(backoff := 0.0), knownPhase := p.knownPhase) && o.st.knownPhase == p.knownPhase
    requires s.token.Some? && BeganRecovery(p, o.st, LoopStarting(s.token.value.attachmentId))
    requires Disarmed(o.st.hb, p.hb)
    ensures var t := Finish(o, Watcher, id).st;
      && BeganRecovery(s, t, LoopStarting(s.token.value.attachmentId))
      && Disarmed(t.hb, s.hb) && id !in t.pw.ticks && t.knownPhase == p.knownPhase
  {
    hide Undisturbed, SameWork, SameSelf, Disarmed;
  }

  /** The first of the events that names a successor. */
  predicate NamesFirst(history: seq<string>, successor: string) {
    exists i | 0 <= i < |history| ::
      history[i] == successor && successor != "" && forall j | 0 <= j < i :: history[j] == ""
  }

  lemma {:induction false} FirstIsNamed(history: seq<string>)
    requires exists h <- history :: h != ""
    ensures FirstNonEmpty(history).Some? && NamesFirst(history, FirstNonEmpty(history).value)
  {
    if history[0] != "" {
      assert history[0] == FirstNonEmpty(history).value;
    } else {
      var rest := history[1..];
      assert exists h <- rest :: h != "" by {
        var h :| h in history && h != "";
        assert history == [history[0]] + rest;
      }
      FirstIsNamed(rest);
      var successor := FirstNonEmpty(rest).value;
      var i :| 0 <= i < |rest| && rest[i] == successor && successor != "" && forall j | 0 <= j < i :: rest[j] == "";
      assert history[i + 1] == successor;
      assert forall j | 0 <= j < i + 1 :: history[j] == "";
    }
  }

  /** A history that names a successor sends a running adapter to the first one named, if its subclass reconnects. */
  lemma SuccessorIsFollowed(s: State, e: Event) returns (successor: string)
    requires Inv(s) && Enabled(s, e) && e.HistoryReply? && HasSuccessor(e.history) && Unhindered(s)
    ensures NamesFirst(e.history.value, successor)
    ensures var t := Step(s, e);
      if e.reconnects then BeganRecovery(s, t.st, RebindStarting(successor)) && t.fx == []
      else t.st.terminalFired && t.st.stopped && !t.st.reconnecting && t.fx == [TerminalNotified(ContinuedAsNew)]
  {
    hide FireTerminalOrReconnect, SetTick, FirstNonEmpty, Inv, BeganRecovery, Disarmed, NamesFirst, Undisturbed,
         SameWork, SameSelf;
    TickIsAttached(s, e);
    FreeHasNoRoutine(s);
    FirstIsNamed(e.history.value);
    successor := FirstNonEmpty(e.history.value).value;
    var o := Out(SetTick(s, e.kind, e.id, Verdict(true)), []);
    SetTickFlags(s, e.kind, e.id, Verdict(true));
    SetTickRest(s, e.kind, e.id, Verdict(true));
    if e.reconnects {
      ReconnectBegins(o, ContinuedAsNew, Some(successor));
      BeganToo(s, o.st, Step(s, e).st, RebindStarting(successor));
    } else {
      ContinuationEnds(o, Some(successor));
    }
  }

  lemma SetTickRest(s: State, k: LoopKind, id: nat, pc: TickPc)
    ensures var t := SetTick(s, k, id, pc); t.nextId == s.nextId && t.sleepers == s.sleepers && t.now == s.now
  {
  }

  lemma BeganToo(s: State, o: State, t: State, pc: Routine)
    requires BeganRecovery(o, t, pc) && o.nextId == s.nextId && o.sleepers == s.sleepers && o.now == s.now
    requires o.token == s.token && o.pinned == s.pinned
    ensures BeganRecovery(s, t, pc)
  {
  }

  lemma ContinuationEnds(o: Out, successor: Option<string>)
    requires Unhindered(o.st) && o.fx == []
    ensures var t := FireTerminalOrReconnect(o, ContinuedAsNew, successor, false);
      t.st.terminalFired && t.st.stopped && !t.st.reconnecting && t.fx == [TerminalNotified(ContinuedAsNew)]
  {
    hide Disarm, Undisturbed, SameWork, SameSelf;
  }

  // ----- the reconnect loop

  /** The routine sleeps before its next attempt, and nothing else has changed. */
  predicate FallsAsleep(s: State, t: Out, r: nat, v: LoopVars) {
    t == Out(s.(routines := s.routines[r := LoopSleeping(v, s.nextId)],
                sleepers := s.sleepers[s.nextId := s.now + v.backoff], nextId := s.nextId + 1), [])
  }

  /** The next backoff: the last one times the factor, up to the cap. */
  function Grown(c: Config, b: real): real {
    if b * c.factor <= c.maxMs then b * c.factor else c.maxMs
  }

  lemma GrownIsNext(c: Config, b: real)
    ensures Grown(c, b) == NextReconnectBackoff(c, b)
  {
  }

  /** What a reconnect loop takes for a passing trouble. */
  predicate IsTransient(s: State, e: Event)
    requires Enabled(s, e)
  {
    match e
    case PrecheckFails(_, terminal) => !terminal
    case PrecheckInfo(r, info) =>
      info.phase == Draining && (info.holder.None? || info.holder.value == s.routines[r].vars.oldAttachmentId)
    case DescribeReply(_, running) => running
    case ReclaimFails(_, terminal) => !terminal
    case _ => false
  }

  /**
   * A passing trouble of a running adapter that has time left is slept off: the next attempt is one further, after the
   * next backoff, which grows by the factor up to its cap, and nobody is told anything.
   */
  lemma TroubleIsSleptOff(s: State, e: Event)
    requires Enabled(s, e) && IsTransient(s, e) && !s.stopped && s.now < s.routines[e.routine].vars.deadline
    ensures var v := s.routines[e.routine].vars;
      FallsAsleep(s, Step(s, e), e.routine,
        LoopVars(v.oldAttachmentId, v.deadline, Grown(s.config, v.backoff), v.attempt + 1))
  {
    hide FallsAsleep, Retry, Give, SetRoutine, NextReconnectBackoff, Grown;
    RetryFalls(s, e.routine, s.routines[e.routine].vars);
  }

  lemma RetryFalls(s: State, r: nat, v: LoopVars)
    requires !s.stopped && s.now < v.deadline
    ensures FallsAsleep(s, Retry(Out(s, []), r, v), r,
                        LoopVars(v.oldAttachmentId, v.deadline, Grown(s.config, v.backoff), v.attempt + 1))
  {
    hide FallsAsleep, LoopHead, Grown, NextReconnectBackoff;
    GrownIsNext(s.config, v.backoff);
    HeadFalls(s, r, v.(backoff := NextReconnectBackoff(s.config, v.backoff)));
  }

  lemma HeadFalls(s: State, r: nat, v: LoopVars)
    requires !s.stopped && s.now < v.deadline
    ensures FallsAsleep(s, LoopHead(Out(s, []), r, v), r, v.(attempt := v.attempt + 1))
  {
    hide Give, Undisturbed, SameWork, SameSelf;
  }

  /** The routine is over, and with it the adapter: the terminal was told, unless one had been before. */
  predicate GaveUp(s: State, t: Out, r: nat, reason: Reason) {
    && r !in t.st.routines && !t.st.reconnecting && (s.stopped ==> t.st.stopped) && t.st.terminalFired
    && t.fx == if s.terminalFired then [] else [TerminalNotified(reason)]
  }

  /** The same trouble ends the loop of an adapter that is stopped or has no time left. */
  lemma TroubleEndsIt(s: State, e: Event)
    requires Enabled(s, e) && IsTransient(s, e) && OutOfTime(s, s.routines[e.routine].vars)
    ensures GaveUp(s, Step(s, e), e.routine, ReconnectExhausted)
  {
    hide Disarm, Undisturbed, SameWork, SameSelf;
  }

  /** What ends it at once: no workflow to come back to, or another holder. */
  lemma HopelessEndsIt(s: State, e: Event)
    requires Enabled(s, e)
    requires e.PrecheckInfo? || (e.DescribeReply? && !e.running) || (e.ReclaimFails? && e.terminal)
    requires e.PrecheckInfo? ==>
      e.info.phase == Gone || (e.info.holder.Some? && e.info.holder.value != s.routines[e.routine].vars.oldAttachmentId)
    ensures GaveUp(s, Step(s, e), e.routine,
      if e.PrecheckInfo? && e.info.phase != Gone then Superseded else Destroy)
  {
    hide Disarm, Undisturbed, SameWork, SameSelf;
  }

  /** `onReconnectStart` is over: the budget runs from here, and the first attempt sleeps for the base. */
  lemma AttemptsBegin(s: State, r: nat, oldId: string)
    requires Enabled(s, HookReturns(r)) && s.routines[r] == LoopStarting(oldId)
    ensures var t := Step(s, HookReturns(r));
      if s.stopped || s.config.budgetMs <= 0.0 then GaveUp(s, t, r, ReconnectExhausted)
      else FallsAsleep(s, t, r, LoopVars(oldId, s.now + s.config.budgetMs, s.config.baseMs, 1))
  {
    hide Disarm, Undisturbed, SameWork, SameSelf;
  }

  /** The sleep is over: the sleeper is gone and the routine is woken; then it asks, or leaves quietly when stopped. */
  lemma SleepThenPrecheck(s: State, r: nat, v: LoopVars, id: nat)
    requires Inv(s) && r in s.routines && s.routines[r] == LoopSleeping(v, id) && Enabled(s, SleepElapses(id))
    ensures Step(s, SleepElapses(id)) == Out(s.(routines := s.routines[r := LoopWoken(v)],
                                                sleepers := s.sleepers - {id}), [])
  {
    hide Undisturbed, SameWork, SameSelf;
    forall q | q in s.routines ensures q == r {
      OnlyOne(s, q, r);
    }
    assert ElapseSleep(s, id).st.routines == s.routines[r := LoopWoken(v)];
  }

  lemma OnlyOne(s: State, q: nat, r: nat)
    requires Inv(s) && q in s.routines && r in s.routines
    ensures q == r
  {
    assert q in s.routines.Keys && r in s.routines.Keys;
  }

  lemma WokenAsksOrLeaves(s: State, r: nat, v: LoopVars)
    requires r in s.routines && (s.routines[r] == LoopWoken(v) || s.routines[r] == LoopAborted(v))
    ensures Step(s, Wakes(r)) ==
      if s.stopped || s.routines[r].LoopAborted? then Out(s.(routines := s.routines - {r}, reconnecting := false), [])
      else Out(s.(routines := s.routines[r := LoopPrecheck(v)]), [PrecheckSent])
  {
  }

  /** A pre-check that shows the lease free is followed by the claim, a terminal-class error by `describe`. */
  lemma PrecheckLeadsOn(s: State, e: Event)
    requires Enabled(s, e)
    requires (e.PrecheckFails? && e.terminal) ||
      (e.PrecheckInfo? && e.info.phase != Gone && e.info.phase != Draining
       && (e.info.holder.None? || e.info.holder.value == s.routines[e.routine].vars.oldAttachmentId))
    ensures var v := s.routines[e.routine].vars;
      Step(s, e) == if e.PrecheckInfo? then Out(s.(routines := s.routines[e.routine := LoopClaiming(v)]), [ReclaimSent])
                    else Out(s.(routines := s.routines[e.routine := LoopDescribe(v)]), [DescribeSent])
  {
  }

  /** A granted claim makes the adapter another attachment, with no backoffs and no phase known. */
  lemma ClaimIsTaken(s: State, r: nat, token: Token)
    requires Enabled(s, ReclaimGranted(r, token))
    ensures Step(s, ReclaimGranted(r, token)) ==
      Out(s.(routines := s.routines[r := LoopResuming(s.routines[r].vars)], token := Some(token),
             pinned := Some(token.runId), knownPhase := None, hb := s.hb.(backoff := 0.0), pw := s.pw.(backoff := 0.0)),
          [Claimed(token)])
  {
  }

  /** A rebind keeps the attachment and moves it to the successor. */
  lemma RebindIsTaken(s: State, r: nat, successor: string)
    requires Enabled(s, HookReturns(r)) && s.routines[r] == RebindStarting(successor) && s.token.Some?
    ensures Step(s, HookReturns(r)) ==
      Out(s.(routines := s.routines[r := RebindResuming], token := Some(s.token.value.(runId := successor)),
             pinned := Some(successor), knownPhase := None, hb := s.hb.(backoff := 0.0), pw := s.pw.(backoff := 0.0)),
          [Rebound(successor)])
  {
  }

  /** The end of a recovery gives a running adapter both timers back, each one cadence or backoff away. */
  lemma RecoveryEnds(s: State, r: nat)
    requires Enabled(s, HookReturns(r)) && (s.routines[r].RebindResuming? || s.routines[r].LoopResuming?)
    ensures var t := Step(s, HookReturns(r));
      && t.fx == [] && t.st.routines == s.routines - {r} && !t.st.reconnecting && t.st.token == s.token
      && if s.stopped then t.st.hb == s.hb && t.st.pw == s.pw && t.st.stopped
         else
           && t.st.hb == s.hb.(armed := s.hb.armed[s.nextId := s.now +
                if s.hb.backoff != 0.0 then s.hb.backoff else s.config.heartbeatMs], field := Some(s.nextId))
           && t.st.pw == s.pw.(armed := s.pw.armed[s.nextId + 1 := s.now +
                if s.pw.backoff != 0.0 then s.pw.backoff else 5.0 * s.config.heartbeatMs], field := Some(s.nextId + 1))
           && t.st.nextId == s.nextId + 2
  {
    hide Undisturbed, SameWork, SameSelf;
  }

  /** A routine that throws is over, and the adapter with it. */
  lemma CrashEndsIt(s: State, r: nat)
    requires Enabled(s, Crashes(r))
    ensures GaveUp(s, Step(s, Crashes(r)), r, ReconnectExhausted)
  {
    hide Disarm, Undisturbed, SameWork, SameSelf;
  }

  // ----- a tick, from its timer to its end

  /** The loop goes on as `l`, with its next timer armed unless something else has the timers. */
  predicate Rescheduled(s: State, t: State, k: LoopKind, l: Loop) {
    var delay := if l.backoff != 0.0 then l.backoff
                 else if k == Heartbeat then s.config.heartbeatMs else 5.0 * s.config.heartbeatMs;
    var next := if Unhindered(s) then l.(armed := l.armed[s.nextId := s.now + delay], field := Some(s.nextId)) else l;
    t == s.(hb := if k == Heartbeat then next else s.hb, pw := if k == Watcher then next else s.pw,
            nextId := if Unhindered(s) then s.nextId + 1 else s.nextId)
  }

  lemma FinishReschedules(o: Out, k: LoopKind, id: nat)
    ensures var l := o.st.LoopOf(k);
      Rescheduled(o.st, Finish(o, k, id).st, k, l.(ticks := l.ticks - {id}))
  {
    hide Undisturbed, SameWork, SameSelf;
  }

  lemma RescheduledFrom(s: State, s': State, t: State, k: LoopKind, l: Loop, m: Loop)
    requires s' == s.WithLoop(k, m) && Rescheduled(s', t, k, l)
    ensures Rescheduled(s, t, k, l)
  {
  }

  /** A due timer of an attached adapter that is free becomes a tick that asks; any other tick is over at once. */
  lemma TimerBecomesTick(s: State, k: LoopKind, id: nat)
    requires Inv(s) && Enabled(s, TimerFires(k, id))
    ensures var l, t := s.LoopOf(k), Step(s, TimerFires(k, id)).st;
      var fired := l.(armed := l.armed - {id});
      if Unhindered(s) && s.token.Some? then t == s.WithLoop(k, fired.(ticks := l.ticks[id := Rpc]))
      else Rescheduled(s, t, k, fired.(ticks := l.ticks - {id}))
  {
    hide Finish, Rescheduled, Inv;
    TokenAndHandle(s);
    var l := s.LoopOf(k);
    var fired := l.(armed := l.armed - {id});
    FinishReschedules(Out(s.WithLoop(k, fired), []), k, id);
    SameLoop(s, k, fired);
    if !(Unhindered(s) && s.token.Some?) {
      RescheduledFrom(s, s.WithLoop(k, fired), Finish(Out(s.WithLoop(k, fired), []), k, id).st, k,
                      fired.(ticks := l.ticks - {id}), fired);
    }
  }

  lemma TokenAndHandle(s: State)
    requires Inv(s)
    ensures s.token.Some? <==> s.pinned.Some?
  {
  }

  lemma SameLoop(s: State, k: LoopKind, l: Loop)
    ensures s.WithLoop(k, l).LoopOf(k) == l
  {
  }

  /** A failed RPC is asked about first, or goes straight to its backoff. */
  lemma TickTurns(s: State, k: LoopKind, id: nat, terminal: bool)
    requires Enabled(s, TickFails(k, id, terminal))
    ensures var l := s.LoopOf(k);
      Step(s, TickFails(k, id, terminal)).st
        == s.WithLoop(k, l.(ticks := l.ticks[id := if terminal then History else Verdict(false)]))
  {
  }

  /** The end of a tick: an accepted heartbeat forgets the backoff, a failure that nobody handled raises it. */
  lemma TickEnds(s: State, e: Event)
    requires Enabled(s, e) && (e.HeartbeatAccepted? || e.TickReturns?)
    ensures var k := if e.TickReturns? then e.kind else Heartbeat;
      var l := s.LoopOf(k);
      var grown := if l.backoff == 0.0 then s.config.heartbeatMs else 1.5 * l.backoff;
      var backoff := if e.HeartbeatAccepted? then 0.0 else if l.ticks[e.id].handled then l.backoff
                     else if grown <= 30000.0 then grown else 30000.0;
      Rescheduled(s, Step(s, e).st, k, l.(ticks := l.ticks - {e.id}, backoff := backoff))
  {
    hide Finish, Rescheduled;
    var k := if e.TickReturns? then e.kind else Heartbeat;
    var l := s.LoopOf(k);
    var backoff := if e.HeartbeatAccepted? then 0.0 else if l.ticks[e.id].handled then l.backoff
                   else NextTickBackoff(l.backoff, s.config.heartbeatMs);
    var s' := s.WithLoop(k, l.(backoff := backoff));
    SameLoop(s, k, l.(backoff := backoff));
    FinishReschedules(Out(s', []), k, e.id);
    RescheduledFrom(s, s', Finish(Out(s', []), k, e.id).st, k, l.(ticks := l.ticks - {e.id}, backoff := backoff),
                    l.(backoff := backoff));
    SameState(s, k);
  }

  lemma SameState(s: State, k: LoopKind)
    ensures s.WithLoop(k, s.LoopOf(k)) == s
  {
  }

  // ----- the watcher's loop

  /** A watcher reply that takes nothing away leaves everything but the phase, and asks again a long cadence later. */
  lemma QuietReplyGoesOn(s: State, e: Event)
    requires Inv(s) && Enabled(s, e) && e.WatcherInfo? && Unhindered(s) && !PhaseStops(s, e)
    requires !Revokes(s, e, Superseded) && !Revokes(s, e, HeartbeatTimeout) && e.info.phase != Gone
    ensures Step(s, e).st ==
      s.(knownPhase := Some(e.info.phase), nextId := s.nextId + 1,
         pw := Loop(s.pw.armed[s.nextId := s.now + 5.0 * s.config.heartbeatMs], Some(s.nextId), s.pw.ticks - {e.id},
           0.0))
  {
    hide NotifyPhase, Inv, Undisturbed, SameWork, SameSelf;
    TickIsAttached(s, e);
    var s' := s.(pw := s.pw.(backoff := 0.0));
    QuietNotify(s', e.info, e.onPhase);
  }

  // ----- calls from outside

  /** A granted start attaches the adapter and arms both loops; a refused one leaves it failed. */
  lemma StartIsTaken(s: State, reply: Option<Token>)
    requires Inv(s) && Enabled(s, StartReply(reply)) && s.hb.backoff == 0.0 && s.pw.backoff == 0.0
    ensures Step(s, StartReply(reply)) ==
      if reply.None? then Out(s.(start := Failed), [])
      else
        Out(s.(start := Started, token := reply, pinned := Some(reply.value.runId), nextId := s.nextId + 2,
               hb := Loop(map[s.nextId := s.now + s.config.heartbeatMs], Some(s.nextId), map[], 0.0),
               pw := Loop(map[s.nextId + 1 := s.now + 5.0 * s.config.heartbeatMs], Some(s.nextId + 1), map[], 0.0)),
            [Claimed(reply.value)])
  {
    hide Undisturbed, SameWork, SameSelf;
    assert forall id :: id in s.hb.armed || id in s.hb.ticks ==> id in s.hb.Live();
    assert forall id :: id in s.pw.armed || id in s.pw.ticks ==> id in s.pw.Live();
    assert s.hb.armed == map[] && s.pw.armed == map[] && s.hb.ticks == map[] && s.pw.ticks == map[];
  }

  /** The routine as an abort of all sleeps leaves it. */
  predicate Unslept(pc: Routine, before: Routine) {
    if before.LoopSleeping? then pc == LoopAborted(before.vars) else pc == before
  }

  /**
   * A first stop takes both timers and all sleeps away, and signs off when it is graceful and the adapter attached; any
   * further one does nothing.
   */
  lemma StopIsTaken(s: State, reason: Reason, graceful: bool)
    requires Inv(s)
    ensures var t := Step(s, CallStop(reason, graceful));
      if s.stopped then t == Out(s, [])
      else
        && t.st.stopped && t.st.sleepers == map[] && DisarmedOrNot(t.st.hb, s.hb) && DisarmedOrNot(t.st.pw, s.pw)
        && t.st.routines.Keys == s.routines.Keys
        && (forall r <- s.routines :: Unslept(t.st.routines[r], s.routines[r]))
        && t.fx == (if graceful && s.token.Some? then [ExitedSent(s.token.value.attachmentId, reason)] else [])
  {
    hide Undisturbed, SameWork, SameSelf;
  }

  /** A subclass's sleep lasts as long as it asked for, and a stopped adapter grants none. */
  lemma SleepIsGranted(s: State, ms: real)
    ensures Step(s, SubclassSleeps(ms)) ==
      if s.stopped then Out(s, [])
      else Out(s.(sleepers := s.sleepers[s.nextId := s.now + ms], nextId := s.nextId + 1), [])
  {
  }
}
