/** The attachment lifecycle of `src/adapters/base.ts` as a state machine.

  Every asynchronous routine is cut at its awaits.  A `State` is what the adapter and the event loop hold
  between two cuts, an `Event` resumes one suspended routine (or calls the adapter from outside), and
  `Step` runs the code up to the next cut.  Replies, policies and the order of events are arbitrary.
  An event that nothing in the state is waiting for leaves the state alone.
 */
module Lifecycle {
  import opened Options

  /** `AttachmentPhase` of `src/types.ts`. */
  datatype Phase = Booting | Attached | Processing | Awaiting | Draining | Detached | Gone

  /** The members of `DetachReason` that the base class or its callers use. */
  datatype Reason =
    | UserStop | Restart | AgentExited | Forced
    | HeartbeatTimeout | Superseded | ContinuedAsNew | Destroy | ReconnectExhausted

  datatype Token = Token(attachmentId: string, runId: string, leaseMs: real)

  /** The part of `AttachmentInfo` that the adapter reads. */
  datatype Info = Info(phase: Phase, holder: Option<string>)

  const LOOP_BACKOFF_FACTOR: real := 1.5
  const LOOP_BACKOFF_MAX_MS: real := 30000.0

  /** Descriptor cadence and reconnect timing; `FACTOR`/`MAX` above are shared by both tick loops. */
  datatype Config = Config(heartbeatMs: real, baseMs: real, maxMs: real, budgetMs: real, factor: real) {
    ghost predicate Valid() {
      0.0 < heartbeatMs && 0.0 < baseMs <= maxMs && 1.0 <= factor
    }
  }

  datatype LoopKind = Heartbeat | Watcher

  /** Where a tick is suspended: its RPC, the history lookup, or the await on `handleRunEndError`. */
  datatype TickPc = Rpc | History | Verdict(handled: bool)

  /** One of the two tick loops.  `armed` maps each pending timer to the time it is due; `field` is the class
    field that remembers the last timer armed, and may name a timer that has already fired.  A tick keeps the
    number of the timer that started it.
   */
  datatype Loop = Loop(armed: map<nat, real>, field: Option<nat>, ticks: map<nat, TickPc>, backoff: real) {
    /** The timers and ticks that keep this loop going. */
    function Live(): set<nat> { armed.Keys + ticks.Keys }
  }

  /** The local variables of `runReconnectLoop`. */
  datatype LoopVars = LoopVars(oldAttachmentId: string, deadline: real, backoff: real, attempt: nat)

  /** Where a recovery routine (`runCanRebind` or `runReconnectLoop`) is suspended. */
  datatype Routine =
    | RebindStarting(successor: string)
    | RebindResuming
    | LoopStarting(oldAttachmentId: string)
    | LoopSleeping(vars: LoopVars, sleeper: nat)
    | LoopWoken(vars: LoopVars)
    | LoopAborted(vars: LoopVars)
    | LoopPrecheck(vars: LoopVars)
    | LoopDescribe(vars: LoopVars)
    | LoopClaiming(vars: LoopVars)
    | LoopResuming(vars: LoopVars)

  datatype StartPc = NotCalled | Claiming | Started | Failed

  datatype State = State(
    config: Config,
    now: real,
    nextId: nat,
    start: StartPc,
    stopped: bool,
    terminalFired: bool,
    reconnecting: bool,
    token: Option<Token>,
    pinned: Option<string>,
    knownPhase: Option<Phase>,
    hb: Loop,
    pw: Loop,
    sleepers: map<nat, real>,
    routines: map<nat, Routine>)
  {
    function LoopOf(k: LoopKind): Loop {
      if k == Heartbeat then hb else pw
    }

    function WithLoop(k: LoopKind, l: Loop): State {
      this.(hb := if k == Heartbeat then l else hb, pw := if k == Watcher then l else pw)
    }
  }

  /** What an outside observer sees of one segment of code. */
  datatype Effect =
    | InitialClaimSent
    | HeartbeatSent(attachmentId: string, runId: string)
    | QuerySent(runId: string)
    | HistorySent(runId: string)
    | PrecheckSent
    | DescribeSent
    | ReclaimSent
    | ExitedSent(attachmentId: string, reason: Reason)
    | Claimed(token: Token)
    | Rebound(runId: string)
    | PhaseNotified(phase: Phase)
    | RevokedNotified(reason: Reason)
    | TerminalNotified(reason: Reason)

  /** A state together with the effects of the segment so far. */
  datatype Out = Out(st: State, fx: seq<Effect>)

  /** A synchronous listener may call `stopV2Lifecycle` before it returns. */
  datatype ListenerCall = Quiet | Stops(reason: Reason, graceful: bool)

  datatype Event =
    | CallStart
    | StartReply(reply: Option<Token>)
    | CallStop(reason: Reason, graceful: bool)
    | TimerFires(kind: LoopKind, id: nat)
    | HeartbeatAccepted(id: nat)
    | WatcherInfo(id: nat, info: Info, onPhase: ListenerCall, onRevoked: ListenerCall, reconnects: bool)
    | TickFails(kind: LoopKind, id: nat, terminal: bool)
    | HistoryReply(kind: LoopKind, id: nat, history: Option<seq<string>>, reconnects: bool)
    | TickReturns(kind: LoopKind, id: nat)
    | HookReturns(routine: nat)
    | SleepElapses(sleeper: nat)
    | Wakes(routine: nat)
    | PrecheckInfo(routine: nat, info: Info)
    | PrecheckFails(routine: nat, terminal: bool)
    | DescribeReply(routine: nat, running: bool)
    | ReclaimGranted(routine: nat, token: Token)
    | ReclaimFails(routine: nat, terminal: bool)
    | Crashes(routine: nat)
    | SubclassSleeps(ms: real)
    | ClockAdvances(ms: real)

  function Init(c: Config): State {
    State(c, 0.0, 0, NotCalled, false, false, false, None, None, None,
          Loop(map[], None, map[], 0.0), Loop(map[], None, map[], 0.0), map[], map[])
  }

  function Min(a: real, b: real): real { if a <= b then a else b }

  /** `Math.min(b ? b * factor : heartbeatMs, max)` of both tick loops. */
  function NextTickBackoff(b: real, heartbeatMs: real): real {
    Min(if b != 0.0 then b * LOOP_BACKOFF_FACTOR else heartbeatMs, LOOP_BACKOFF_MAX_MS)
  }

  function TickDelay(c: Config, k: LoopKind, backoff: real): real {
    if backoff != 0.0 then backoff
    else match k case Heartbeat => c.heartbeatMs case Watcher => c.heartbeatMs * 5.0
  }

  function NextReconnectBackoff(c: Config, b: real): real {
    Min(b * c.factor, c.maxMs)
  }

  ghost predicate AwaitsDescribe(s: State, r: nat) {
    r in s.routines && s.routines[r].LoopDescribe?
  }

  /** Between `s` and `t` no tick has moved, and no routine has turned to the `describe` tiebreaker. */
  ghost predicate SameWork(s: State, t: State) {
    && t.hb.ticks == s.hb.ticks && t.pw.ticks == s.pw.ticks
    && (forall r :: AwaitsDescribe(t, r) ==> AwaitsDescribe(s, r))
  }

  /** The adapter's identity, the phase it last observed and the clock are the same in both states. */
  ghost predicate SameSelf(s: State, t: State) {
    t.config == s.config && t.now == s.now &&
    t.start == s.start && t.token == s.token && t.pinned == s.pinned && t.knownPhase == s.knownPhase
  }

  ghost predicate Undisturbed(s: State, t: State) {
    SameWork(s, t) && SameSelf(s, t)
  }

  // ----- the private helpers of the class

  function Disarm(l: Loop): Loop {
    if l.field.Some? then l.(armed := l.armed - {l.field.value}, field := None) else l
  }

  /** `scheduleHeartbeat` and `schedulePhaseWatcher`. */
  function Arm(s: State, k: LoopKind): State {
    var l := s.LoopOf(k);
    s.WithLoop(k, l.(armed := l.armed[s.nextId := s.now + TickDelay(s.config, k, l.backoff)], field := Some(s.nextId)))
     .(nextId := s.nextId + 1)
  }

  function ArmBoth(s: State): (t: State)
    ensures Undisturbed(s, t)
  {
    Arm(Arm(s, Heartbeat), Watcher)
  }

  function Aborted(r: Routine): Routine {
    if r.LoopSleeping? then LoopAborted(r.vars) else r
  }

  /** `abortSleepers`: every pending sleeper is gone, and a reconnect loop that slept will unwind. */
  function AbortSleepers(s: State): (t: State)
    ensures t.routines.Keys == s.routines.Keys
  {
    s.(sleepers := map[],
       routines := map r | r in s.routines :: if s.routines[r].LoopSleeping? && s.routines[r].sleeper in s.sleepers
                                              then Aborted(s.routines[r]) else s.routines[r])
  }

  /** The teardown that `stopV2Lifecycle` and `fireTerminal` share. */
  function Silence(s: State): State {
    AbortSleepers(s.(stopped := true, hb := Disarm(s.hb), pw := Disarm(s.pw)))
  }

  function Stop(o: Out, reason: Reason, graceful: bool): (p: Out)
    ensures Undisturbed(o.st, p.st)
  {
    if o.st.stopped then o
    else
      var s := Silence(o.st);
      Out(s, if graceful && s.pinned.Some? && s.token.Some?
             then o.fx + [ExitedSent(s.token.value.attachmentId, reason)] else o.fx)
  }

  function Listen(o: Out, call: ListenerCall): (p: Out)
    ensures Undisturbed(o.st, p.st)
  {
    match call
    case Quiet => o
    case Stops(reason, graceful) => Stop(o, reason, graceful)
  }

  function FireTerminal(o: Out, reason: Reason): (p: Out)
    ensures Undisturbed(o.st, p.st)
  {
    if o.st.terminalFired then o
    else Out(Silence(o.st.(terminalFired := true)), o.fx + [TerminalNotified(reason)])
  }

  /** A recovery routine leaves: its `finally` clears `reconnecting`. */
  function EndRoutine(o: Out, r: nat): Out {
    o.(st := o.st.(routines := o.st.routines - {r}, reconnecting := false))
  }

  function Give(o: Out, r: nat, reason: Reason): (p: Out)
    ensures Undisturbed(o.st, p.st)
  {
    EndRoutine(FireTerminal(o, reason), r)
  }

  function AddRoutine(s: State, r: Routine): State {
    s.(routines := s.routines[s.nextId := r], nextId := s.nextId + 1)
  }

  function FireTerminalOrReconnect(o: Out, reason: Reason, successor: Option<string>, reconnects: bool): (p: Out)
    ensures Undisturbed(o.st, p.st)
  {
    if o.st.stopped || o.st.terminalFired || o.st.reconnecting then o
    else if !reconnects then FireTerminal(o, reason)
    else
      var s := o.st.(reconnecting := true, hb := Disarm(o.st.hb), pw := Disarm(o.st.pw));
      if s.pinned.None? || s.token.None? then
        var f := FireTerminal(o.(st := s), ReconnectExhausted);
        f.(st := f.st.(reconnecting := false))
      else if reason == ContinuedAsNew && successor.Some? then
        o.(st := AddRoutine(s, RebindStarting(successor.value)))
      else
        o.(st := AddRoutine(s, LoopStarting(s.token.value.attachmentId)))
  }

  /** The `finally` of both ticks: reschedule unless stopped, terminal, or a recovery owns the timers. */
  function Finish(o: Out, k: LoopKind, id: nat): (p: Out)
    ensures SameSelf(o.st, p.st) && p.st.routines == o.st.routines && p.st.sleepers == o.st.sleepers && p.fx == o.fx
  {
    var l := o.st.LoopOf(k);
    var s := o.st.WithLoop(k, l.(ticks := l.ticks - {id}));
    o.(st := if !s.stopped && !s.reconnecting && !s.terminalFired then Arm(s, k) else s)
  }

  function SetTick(s: State, k: LoopKind, id: nat, pc: TickPc): State {
    var l := s.LoopOf(k);
    s.WithLoop(k, l.(ticks := l.ticks[id := pc]))
  }

  function SetRoutine(s: State, r: nat, pc: Routine): State {
    s.(routines := s.routines[r := pc])
  }

  /** `findCanSuccessorRunId`: the first non-empty successor in the closed run's history, if it was fetched. */
  function FindSuccessor(history: Option<seq<string>>): Option<string> {
    if history.None? then None else FirstNonEmpty(history.value)
  }

  function FirstNonEmpty(events: seq<string>): Option<string> {
    if events == [] then None
    else if events[0] != "" then Some(events[0])
    else FirstNonEmpty(events[1..])
  }

  /** The head of the reconnect loop: one more abortable sleep, or the budget is spent. */
  function LoopHead(o: Out, r: nat, v: LoopVars): (p: Out)
    ensures Undisturbed(o.st, p.st)
  {
    var s := o.st;
    if !s.stopped && s.now < v.deadline then
      o.(st := SetRoutine(s, r, LoopSleeping(v.(attempt := v.attempt + 1), s.nextId))
               .(sleepers := s.sleepers[s.nextId := s.now + v.backoff], nextId := s.nextId + 1))
    else Give(o, r, ReconnectExhausted)
  }

  function Retry(o: Out, r: nat, v: LoopVars): Out {
    LoopHead(o, r, v.(backoff := NextReconnectBackoff(o.st.config, v.backoff)))
  }

  /** What both recovery routines do after `onReconnected`. */
  function Resume(o: Out, r: nat): (p: Out)
    ensures Undisturbed(o.st, p.st)
  {
    var s := o.st.(reconnecting := false);
    EndRoutine(o.(st := if !s.stopped then ArmBoth(s) else s), r)
  }

  function Repoint(s: State, t: Token): State {
    s.(token := Some(t), pinned := Some(t.runId), knownPhase := None,
       hb := s.hb.(backoff := 0.0), pw := s.pw.(backoff := 0.0))
  }

  // ----- one segment per event

  function FireTimer(s: State, k: LoopKind, id: nat): Out {
    var l := s.LoopOf(k);
    var s := s.WithLoop(k, l.(armed := l.armed - {id}));
    if s.stopped || s.terminalFired || s.reconnecting || s.pinned.None? || s.token.None? then
      Finish(Out(s, []), k, id)
    else
      Out(SetTick(s, k, id, Rpc),
          match k
          case Heartbeat => [HeartbeatSent(s.token.value.attachmentId, s.pinned.value)]
          case Watcher => [QuerySent(s.pinned.value)])
  }

  function AcceptHeartbeat(s: State, id: nat): Out {
    Finish(Out(s.(hb := s.hb.(backoff := 0.0)), []), Heartbeat, id)
  }

  /** The watcher's reply, first half: the phase listeners. */
  function NotifyPhase(s: State, info: Info, onPhase: ListenerCall): (p: Out)
    ensures Undisturbed(s.(knownPhase := Some(info.phase)), p.st)
  {
    if s.knownPhase != Some(info.phase) then
      Listen(Out(s.(knownPhase := Some(info.phase)), [PhaseNotified(info.phase)]), onPhase)
    else Out(s, [])
  }

  function Revoke(o: Out, reason: Reason, onRevoked: ListenerCall, reconnects: bool): Out {
    FireTerminalOrReconnect(Listen(o.(fx := o.fx + [RevokedNotified(reason)]), onRevoked), reason, None, reconnects)
  }

  /** The watcher's reply, second half: revoked, reaped, gone, or nothing to do. */
  function JudgeInfo(o: Out, info: Info, onRevoked: ListenerCall, reconnects: bool): (p: Out)
    ensures Undisturbed(o.st, p.st)
  {
    if info.holder.Some? && o.st.token.Some? && info.holder.value != o.st.token.value.attachmentId then
      Revoke(o, Superseded, onRevoked, reconnects)
    else if info.phase == Detached && info.holder.None? then
      Revoke(o, HeartbeatTimeout, onRevoked, reconnects)
    else if info.phase == Gone then FireTerminal(o, Destroy)
    else o
  }

  function ReceiveInfo(s: State, id: nat, info: Info, onPhase: ListenerCall, onRevoked: ListenerCall,
      reconnects: bool): Out {
    var o := NotifyPhase(s.(pw := s.pw.(backoff := 0.0)), info, onPhase);
    Finish(JudgeInfo(o, info, onRevoked, reconnects), Watcher, id)
  }

  function FailTick(s: State, k: LoopKind, id: nat, terminal: bool): Out {
    if terminal then Out(SetTick(s, k, id, History), if s.pinned.Some? then [HistorySent(s.pinned.value)] else [])
    else Out(SetTick(s, k, id, Verdict(false)), [])
  }

  function ReceiveHistory(s: State, k: LoopKind, id: nat, history: Option<seq<string>>, reconnects: bool): Out {
    var successor := FindSuccessor(history);
    var o := Out(SetTick(s, k, id, Verdict(true)), []);
    if successor.Some? then FireTerminalOrReconnect(o, ContinuedAsNew, successor, reconnects)
    else FireTerminal(o, Destroy)
  }

  function ReturnFromTick(s: State, k: LoopKind, id: nat, handled: bool): Out {
    var l := s.LoopOf(k);
    var s := if handled then s else s.WithLoop(k, l.(backoff := NextTickBackoff(l.backoff, s.config.heartbeatMs)));
    Finish(Out(s, []), k, id)
  }

  function ReturnFromHook(s: State, r: nat, pc: Routine): Out {
    match pc
    case RebindStarting(successor) =>
      if s.token.None? then Out(s, [])
      else Out(SetRoutine(Repoint(s, s.token.value.(runId := successor)), r, RebindResuming), [Rebound(successor)])
    case RebindResuming => Resume(Out(s, []), r)
    case LoopStarting(oldId) =>
      LoopHead(Out(s, []), r, LoopVars(oldId, s.now + s.config.budgetMs, s.config.baseMs, 0))
    case LoopResuming(_) => Resume(Out(s, []), r)
    case _ => Out(s, [])
  }

  /** The abortable sleep settles in two parts: the timer callback, then the routine that awaited it. */
  function ElapseSleep(s: State, id: nat): (o: Out)
    ensures Undisturbed(s, o.st) && o.st.routines.Keys == s.routines.Keys
  {
    Out(s.(sleepers := s.sleepers - {id},
           routines := map r | r in s.routines ::
             if s.routines[r].LoopSleeping? && s.routines[r].sleeper == id then LoopWoken(s.routines[r].vars)
             else s.routines[r]), [])
  }

  function Wake(s: State, r: nat, pc: Routine): Out {
    match pc
    case LoopWoken(v) =>
      if s.stopped then EndRoutine(Out(s, []), r) else Out(SetRoutine(s, r, LoopPrecheck(v)), [PrecheckSent])
    case LoopAborted(_) => EndRoutine(Out(s, []), r)
    case _ => Out(s, [])
  }

  function ReceivePrecheck(s: State, r: nat, v: LoopVars, info: Info): Out {
    if info.phase == Gone then Give(Out(s, []), r, Destroy)
    else if info.holder.Some? && info.holder.value != v.oldAttachmentId then Give(Out(s, []), r, Superseded)
    else if info.phase == Draining then Retry(Out(s, []), r, v)
    else Out(SetRoutine(s, r, LoopClaiming(v)), [ReclaimSent])
  }

  function FailPrecheck(s: State, r: nat, v: LoopVars, terminal: bool): Out {
    if terminal then Out(SetRoutine(s, r, LoopDescribe(v)), [DescribeSent]) else Retry(Out(s, []), r, v)
  }

  function ReceiveDescribe(s: State, r: nat, v: LoopVars, running: bool): Out {
    if running then Retry(Out(s, []), r, v) else Give(Out(s, []), r, Destroy)
  }

  function FailReclaim(s: State, r: nat, v: LoopVars, terminal: bool): Out {
    if terminal then Give(Out(s, []), r, Destroy) else Retry(Out(s, []), r, v)
  }

  /** Is anything in the state waiting for this event? */
  predicate Enabled(s: State, e: Event) {
    match e
    case CallStart => s.start == NotCalled
    case StartReply(_) => s.start == Claiming
    case CallStop(_, _) => true
    case TimerFires(k, id) => id in s.LoopOf(k).armed && s.LoopOf(k).armed[id] <= s.now
    case HeartbeatAccepted(id) => id in s.hb.ticks && s.hb.ticks[id] == Rpc
    case WatcherInfo(id, _, _, _, _) => id in s.pw.ticks && s.pw.ticks[id] == Rpc
    case TickFails(k, id, _) => id in s.LoopOf(k).ticks && s.LoopOf(k).ticks[id] == Rpc
    case HistoryReply(k, id, _, _) => id in s.LoopOf(k).ticks && s.LoopOf(k).ticks[id] == History
    case TickReturns(k, id) => id in s.LoopOf(k).ticks && s.LoopOf(k).ticks[id].Verdict?
    case HookReturns(r) =>
      && r in s.routines
      && (s.routines[r].RebindStarting? || s.routines[r].RebindResuming? || s.routines[r].LoopStarting?
        || s.routines[r].LoopResuming?)
    case SleepElapses(id) => id in s.sleepers && s.sleepers[id] <= s.now
    case Wakes(r) => r in s.routines && (s.routines[r].LoopWoken? || s.routines[r].LoopAborted?)
    case PrecheckInfo(r, _) => r in s.routines && s.routines[r].LoopPrecheck?
    case PrecheckFails(r, _) => r in s.routines && s.routines[r].LoopPrecheck?
    case DescribeReply(r, _) => r in s.routines && s.routines[r].LoopDescribe?
    case ReclaimGranted(r, _) => r in s.routines && s.routines[r].LoopClaiming?
    case ReclaimFails(r, _) => r in s.routines && s.routines[r].LoopClaiming?
    case Crashes(r) => r in s.routines
    case SubclassSleeps(ms) => !s.stopped
    case ClockAdvances(ms) => 0.0 <= ms
  }

  /** The events that resume a tick of either loop. */
  predicate IsTickEvent(e: Event) {
    e.TimerFires? || e.TickFails? || e.HistoryReply? || e.TickReturns? || e.HeartbeatAccepted? || e.WatcherInfo?
  }

  function Step(s: State, e: Event): Out {
    if !Enabled(s, e) then Out(s, [])
    else
      match e
      case CallStart => Out(s.(start := Claiming), [InitialClaimSent])
      case StartReply(reply) =>
        if reply.None? then Out(s.(start := Failed), [])
        else Out(ArmBoth(s.(start := Started, token := reply, pinned := Some(reply.value.runId))),
          [Claimed(reply.value)])
      case CallStop(reason, graceful) => Stop(Out(s, []), reason, graceful)
      case TimerFires(k, id) => FireTimer(s, k, id)
      case HeartbeatAccepted(id) => AcceptHeartbeat(s, id)
      case WatcherInfo(id, info, onPhase, onRevoked, reconnects) =>
        ReceiveInfo(s, id, info, onPhase, onRevoked, reconnects)
      case TickFails(k, id, terminal) => FailTick(s, k, id, terminal)
      case HistoryReply(k, id, history, reconnects) => ReceiveHistory(s, k, id, history, reconnects)
      case TickReturns(k, id) => ReturnFromTick(s, k, id, s.LoopOf(k).ticks[id].handled)
      case HookReturns(r) => ReturnFromHook(s, r, s.routines[r])
      case SleepElapses(id) => ElapseSleep(s, id)
      case Wakes(r) => Wake(s, r, s.routines[r])
      case PrecheckInfo(r, info) => ReceivePrecheck(s, r, s.routines[r].vars, info)
      case PrecheckFails(r, terminal) => FailPrecheck(s, r, s.routines[r].vars, terminal)
      case DescribeReply(r, running) => ReceiveDescribe(s, r, s.routines[r].vars, running)
      case ReclaimGranted(r, token) =>
        Out(SetRoutine(Repoint(s, token), r, LoopResuming(s.routines[r].vars)), [Claimed(token)])
      case ReclaimFails(r, terminal) => FailReclaim(s, r, s.routines[r].vars, terminal)
      case Crashes(r) =>
        var o := EndRoutine(Out(s, []), r);
        FireTerminal(o, ReconnectExhausted)
      case SubclassSleeps(ms) => Out(s.(sleepers := s.sleepers[s.nextId := s.now + ms], nextId := s.nextId + 1), [])
      case ClockAdvances(ms) => Out(s.(now := s.now + ms), [])
  }

  /** The state after a whole run, every event in order from a freshly constructed adapter. */
  function Run(c: Config, es: seq<Event>): State {
    if es == [] then Init(c) else Step(Run(c, es[..|es| - 1]), es[|es| - 1]).st
  }

  /** What the `i`-th event of a run does. */
  function At(c: Config, es: seq<Event>, i: nat): Out
    requires i < |es|
  {
    Step(Run(c, es[..i]), es[i])
  }
}
