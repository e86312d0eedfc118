/** Whole-run theorems on what the adapter remembers: who it is, and the phase it last reported. */
module LifecycleHistory {
  import opened Options
  import opened Lifecycle
  import opened LifecycleInvariants
  import opened LifecycleTerminal
  import opened LifecycleTicks
  import opened Sequences

  // ----- what a step says about identity and phase

  /** The token a step's reply grants, if any. */
  function Granted(s: State, e: Event): Option<Token> {
    if !Enabled(s, e) then None
    else match e
      case StartReply(reply) => reply
      case ReclaimGranted(_, token) => Some(token)
      case _ => None
  }

  /** The run a step rebinds to, if any. */
  function ReboundTo(s: State, e: Event): Option<string> {
    if Enabled(s, e) && e.HookReturns? && s.routines[e.routine].RebindStarting? && s.token.Some?
    then Some(s.routines[e.routine].successor) else None
  }

  /** The phase a step's reply shows, if any. */
  function Observed(s: State, e: Event): Option<Phase> {
    if Enabled(s, e) && e.WatcherInfo? then Some(e.info.phase) else None
  }

  predicate Telling(x: Effect) {
    x.PhaseNotified? || x.Claimed? || x.Rebound?
  }

  lemma RevokeTells(o: Out, reason: Reason, onRevoked: ListenerCall, reconnects: bool, x: Effect)
    requires Telling(x)
    ensures x in Revoke(o, reason, onRevoked, reconnects).fx <==> x in o.fx
  {
  }

  lemma InfoTells(s: State, id: nat, info: Info, onPhase: ListenerCall, onRevoked: ListenerCall, reconnects: bool,
      x: Effect)
    requires Telling(x)
    ensures x in ReceiveInfo(s, id, info, onPhase, onRevoked, reconnects).fx
       <==> x == PhaseNotified(info.phase) && s.knownPhase != Some(info.phase)
  {
    hide Revoke, Finish;
    var o := NotifyPhase(s.(pw := s.pw.(backoff := 0.0)), info, onPhase);
    RevokeTells(o, Superseded, onRevoked, reconnects, x);
    RevokeTells(o, HeartbeatTimeout, onRevoked, reconnects, x);
  }

  lemma TickTells(s: State, e: Event, x: Effect)
    requires Telling(x) && !e.WatcherInfo? && IsTickEvent(e)
    ensures x !in Step(s, e).fx
  {
    hide Finish, SetTick, Silence, Undisturbed, SameWork, SameSelf;
  }

  lemma AttemptTells(s: State, e: Event, x: Effect)
    requires Telling(x)
    requires e.PrecheckInfo? || e.PrecheckFails? || e.DescribeReply? || e.ReclaimFails? || e.Crashes?
    ensures x !in Step(s, e).fx
  {
    hide Silence, SetRoutine, Undisturbed, SameWork, SameSelf;
  }

  lemma RoutineTells(s: State, e: Event, x: Effect)
    requires Telling(x) && !e.WatcherInfo?
    ensures x in Step(s, e).fx
       <==> (x.Claimed? && Granted(s, e) == Some(x.token)) || (x.Rebound? && ReboundTo(s, e) == Some(x.runId))
  {
    if IsTickEvent(e) {
      TickTells(s, e, x);
    } else if e.PrecheckInfo? || e.PrecheckFails? || e.DescribeReply? || e.ReclaimFails? || e.Crashes? {
      AttemptTells(s, e, x);
    } else {
      OtherTells(s, e, x);
    }
  }

  lemma OtherTells(s: State, e: Event, x: Effect)
    requires Telling(x) && !IsTickEvent(e)
    requires !(e.PrecheckInfo? || e.PrecheckFails? || e.DescribeReply? || e.ReclaimFails? || e.Crashes?)
    ensures x in Step(s, e).fx
       <==> (x.Claimed? && Granted(s, e) == Some(x.token)) || (x.Rebound? && ReboundTo(s, e) == Some(x.runId))
  {
    hide FireTimer, AcceptHeartbeat, ReceiveInfo, FailTick, ReceiveHistory, ReturnFromTick, ReceivePrecheck,
         FailPrecheck, ReceiveDescribe, FailReclaim, Silence, SetRoutine, Repoint, ArmBoth, Undisturbed, SameWork,
         SameSelf;
  }

  /** What a segment tells of its identity: a claim exactly when one is granted, a rebind exactly when one is made. */
  lemma StepTells(s: State, e: Event, x: Effect)
    requires x.Claimed? || x.Rebound?
    ensures x in Step(s, e).fx
       <==> (x.Claimed? && Granted(s, e) == Some(x.token)) || (x.Rebound? && ReboundTo(s, e) == Some(x.runId))
  {
    if !e.WatcherInfo? {
      RoutineTells(s, e, x);
    } else if Enabled(s, e) {
      hide ReceiveInfo;
      InfoTells(s, e.id, e.info, e.onPhase, e.onRevoked, e.reconnects, x);
    }
  }

  /** The reclaim and the rebind forget the phase; the initial claim has none to forget. */
  predicate OpensEpoch(s: State, e: Event) {
    ReboundTo(s, e).Some? || (Enabled(s, e) && e.ReclaimGranted?)
  }

  lemma InfoSelf(s: State, id: nat, info: Info, onPhase: ListenerCall, onRevoked: ListenerCall, reconnects: bool)
    ensures SameSelf(s.(knownPhase := Some(info.phase)), ReceiveInfo(s, id, info, onPhase, onRevoked, reconnects).st)
  {
    hide NotifyPhase, JudgeInfo, SameWork, Finish;
    assert true;
  }

  lemma HistorySelf(s: State, k: LoopKind, id: nat, history: Option<seq<string>>, reconnects: bool)
    ensures SameSelf(s, ReceiveHistory(s, k, id, history, reconnects).st)
  {
    hide FireTerminal, FireTerminalOrReconnect, SameWork, FindSuccessor;
    assert true;
  }

  lemma PlainTickSelf(s: State, k: LoopKind, id: nat, b: bool)
    ensures SameSelf(s, FireTimer(s, k, id).st) && SameSelf(s, FailTick(s, k, id, b).st)
    ensures SameSelf(s, ReturnFromTick(s, k, id, b).st) && SameSelf(s, AcceptHeartbeat(s, id).st)
  {
    hide Finish, SameWork;
    assert true;
  }

  lemma TickSelf(s: State, e: Event)
    requires IsTickEvent(e)
    ensures SameSelf(if Observed(s, e).Some? then s.(knownPhase := Observed(s, e)) else s, Step(s, e).st)
  {
    hide ReceiveInfo, ReceiveHistory, Finish, SameWork, FireTimer, FailTick, ReturnFromTick, AcceptHeartbeat;
    match e
    case WatcherInfo(id, info, onPhase, onRevoked, reconnects) => InfoSelf(s, id, info, onPhase, onRevoked, reconnects);
    case HistoryReply(k, id, history, reconnects) => HistorySelf(s, k, id, history, reconnects);
    case TimerFires(k, id) => PlainTickSelf(s, k, id, true);
    case TickFails(k, id, terminal) => PlainTickSelf(s, k, id, terminal);
    case HeartbeatAccepted(id) => PlainTickSelf(s, Heartbeat, id, true);
    case TickReturns(k, id) => if Enabled(s, e) { PlainTickSelf(s, k, id, s.LoopOf(k).ticks[id].handled); }
  }

  lemma OtherSelf(s: State, e: Event)
    requires !IsTickEvent(e)
    ensures Step(s, e).st.token ==
            if Granted(s, e).Some? then Granted(s, e)
            else if ReboundTo(s, e).Some? then Some(s.token.value.(runId := ReboundTo(s, e).value))
            else s.token
    ensures Step(s, e).st.knownPhase == if OpensEpoch(s, e) then None else s.knownPhase
    ensures Step(s, e).st.start == Started <==> s.start == Started || (e.StartReply? && Granted(s, e).Some?)
  {
    hide FireTimer, AcceptHeartbeat, ReceiveInfo, FailTick, ReceiveHistory, ReturnFromTick, ReturnFromHook,
         ElapseSleep, Wake, FireTerminal, Give, LoopHead, Resume, Stop, ArmBoth, EndRoutine, SameWork;
    if e.HookReturns? {
      if Enabled(s, e) { HookSelf(s, e.routine); }
    } else if e.Wakes? {
      if Enabled(s, e) { WakeSelf(s, e.routine); }
    } else if e.Crashes? {
      if Enabled(s, e) { CrashSelf(s, e.routine); }
    }
  }

  lemma HookSelf(s: State, r: nat)
    requires Enabled(s, HookReturns(r))
    ensures var t := ReturnFromHook(s, r, s.routines[r]).st;
      if ReboundTo(s, HookReturns(r)).Some? then
        && t.token == Some(s.token.value.(runId := ReboundTo(s, HookReturns(r)).value))
        && t.knownPhase.None? && t.start == s.start
      else SameSelf(s, t)
  {
    hide LoopHead, Resume, SameWork;
  }

  lemma WakeSelf(s: State, r: nat)
    requires Enabled(s, Wakes(r))
    ensures SameSelf(s, Wake(s, r, s.routines[r]).st)
  {
  }

  lemma CrashSelf(s: State, r: nat)
    requires r in s.routines
    ensures SameSelf(s, FireTerminal(EndRoutine(Out(s, []), r), ReconnectExhausted).st)
  {
    hide FireTerminal, SameWork;
  }

  /** Identity and last phase change only as the reply at hand says. */
  lemma StepSelf(s: State, e: Event)
    ensures Step(s, e).st.token ==
            if Granted(s, e).Some? then Granted(s, e)
            else if ReboundTo(s, e).Some? then Some(s.token.value.(runId := ReboundTo(s, e).value))
            else s.token
    ensures Step(s, e).st.knownPhase ==
            if OpensEpoch(s, e) then None else if Observed(s, e).Some? then Observed(s, e) else s.knownPhase
    ensures Step(s, e).st.start == Started <==> s.start == Started || (e.StartReply? && Granted(s, e).Some?)
  {
    hide Step;
    if IsTickEvent(e) { TickSelf(s, e); } else { OtherSelf(s, e); }
  }

  // ----- identity over a run

  /** The last token granted in a run. */
  ghost function LastClaim(c: Config, es: seq<Event>): Option<Token> {
    if es == [] then None
    else
      var before := es[..|es| - 1];
      var granted := Granted(Run(c, before), es[|es| - 1]);
      if granted.Some? then granted else LastClaim(c, before)
  }

  /** The run last claimed or rebound to. */
  ghost function LastRun(c: Config, es: seq<Event>): Option<string> {
    if es == [] then None
    else
      var before := es[..|es| - 1];
      var s, e := Run(c, before), es[|es| - 1];
      if Granted(s, e).Some? then Some(Granted(s, e).value.runId)
      else if ReboundTo(s, e).Some? then ReboundTo(s, e)
      else LastRun(c, before)
  }

  /** However many continue-as-new rebinds a run holds, the adapter keeps the attachment and the lease of its last
    claim, and both its token and its pinned handle name the run of the last claim or rebind.
   */
  lemma {:induction false} IdentityIsLastClaim(c: Config, es: seq<Event>)
    ensures var s := Run(c, es);
            if s.start == Started then
              && LastClaim(c, es).Some? && LastRun(c, es).Some?
              && s.token == Some(LastClaim(c, es).value.(runId := LastRun(c, es).value))
              && s.pinned == LastRun(c, es)
            else LastClaim(c, es).None? && LastRun(c, es).None? && s.token.None? && s.pinned.None?
  {
    if es != [] {
      var before, e := es[..|es| - 1], es[|es| - 1];
      IdentityIsLastClaim(c, before);
      RunKeepsInv(c, before);
      RunKeepsInv(c, es);
      StepSelf(Run(c, before), e);
    }
  }

  /** The last claim that effects tell of. */
  function ToldClaim(fx: seq<Effect>): Option<Token> {
    if fx == [] then None
    else
      var last := fx[|fx| - 1];
      if last.Claimed? then Some(last.token) else ToldClaim(fx[..|fx| - 1])
  }

  /** The run that effects last tell of, as claimed or as rebound to. */
  function ToldRun(fx: seq<Effect>): Option<string> {
    if fx == [] then None
    else
      var last := fx[|fx| - 1];
      if last.Claimed? then Some(last.token.runId)
      else if last.Rebound? then Some(last.runId)
      else ToldRun(fx[..|fx| - 1])
  }

  lemma {:induction false} ToldJoin(a: seq<Effect>, b: seq<Effect>)
    ensures ToldClaim(a + b) == if ToldClaim(b).Some? then ToldClaim(b) else ToldClaim(a)
    ensures ToldRun(a + b) == if ToldRun(b).Some? then ToldRun(b) else ToldRun(a)
  {
    if b == [] {
      assert a + b == a;
    } else {
      ToldJoin(a, b[..|b| - 1]);
      assert (a + b)[..|a + b| - 1] == a + b[..|b| - 1];
    }
  }

  lemma {:induction false} ToldAreMembers(fx: seq<Effect>)
    ensures if ToldClaim(fx).Some? then Claimed(ToldClaim(fx).value) in fx else forall x <- fx :: !x.Claimed?
    ensures ToldRun(fx).None? ==> forall x <- fx :: !x.Claimed? && !x.Rebound?
    ensures ToldRun(fx).Some? ==> exists x <- fx :: x == Rebound(ToldRun(fx).value)
                                            || (x.Claimed? && x.token.runId == ToldRun(fx).value)
  {
    if fx != [] {
      ToldAreMembers(fx[..|fx| - 1]);
      assert fx == fx[..|fx| - 1] + [fx[|fx| - 1]];
    }
  }

  lemma GrantIsNoRebind(s: State, e: Event)
    ensures Granted(s, e).None? || ReboundTo(s, e).None?
  {
  }

  lemma StepIsTold(s: State, e: Event)
    ensures ToldClaim(Step(s, e).fx) == Granted(s, e)
    ensures ToldRun(Step(s, e).fx)
         == if Granted(s, e).Some? then Some(Granted(s, e).value.runId) else ReboundTo(s, e)
  {
    hide *;
    var fx := Step(s, e).fx;
    ToldAreMembers(fx);
    GrantIsNoRebind(s, e);
    forall x: Effect | x.Claimed? || x.Rebound?
      ensures x in fx
         <==> (x.Claimed? && Granted(s, e) == Some(x.token)) || (x.Rebound? && ReboundTo(s, e) == Some(x.runId))
    {
      StepTells(s, e, x);
    }
    if Granted(s, e).Some? { assert Claimed(Granted(s, e).value) in fx; }
    if ReboundTo(s, e).Some? { assert Rebound(ReboundTo(s, e).value) in fx; }
  }

  /** What an observer of a run is told last is what `LastClaim` and `LastRun` say. */
  lemma {:induction false} TraceTellsIdentity(c: Config, es: seq<Event>)
    ensures ToldClaim(Trace(c, es)) == LastClaim(c, es) && ToldRun(Trace(c, es)) == LastRun(c, es)
  {
    hide Step, Run, Granted, ReboundTo, ToldClaim, ToldRun;
    if es == [] {
      NothingTold();
    } else {
      var before, e := es[..|es| - 1], es[|es| - 1];
      TraceTellsIdentity(c, before);
      StepIsTold(Run(c, before), e);
      ToldJoin(Trace(c, before), Step(Run(c, before), e).fx);
    }
  }

  lemma NothingTold()
    ensures ToldClaim([]) == None && ToldRun([]) == None
  {
  }

  /** So the adapter is who it last told it is: token and handle can be read off the effects of the run. */
  lemma IdentityIsTold(c: Config, es: seq<Event>)
    ensures var s, fx := Run(c, es), Trace(c, es);
            if s.start == Started then
              && ToldClaim(fx).Some? && ToldRun(fx).Some?
              && s.token == Some(ToldClaim(fx).value.(runId := ToldRun(fx).value)) && s.pinned == ToldRun(fx)
            else ToldClaim(fx).None? && ToldRun(fx).None? && s.token.None? && s.pinned.None?
  {
    hide Run, Trace, LastClaim, LastRun, ToldClaim, ToldRun;
    IdentityIsLastClaim(c, es);
    TraceTellsIdentity(c, es);
  }

  // ----- phase notifications over a run

  datatype Mark = Epoch | Obs(phase: Phase)

  /** The phases observed in a run, with the reclaims and rebinds that separate its attachments. */
  ghost function Marks(c: Config, es: seq<Event>): seq<Mark> {
    if es == [] then []
    else
      var before := es[..|es| - 1];
      var s, e := Run(c, before), es[|es| - 1];
      Marks(c, before) +
      (if OpensEpoch(s, e) then [Epoch] else if Observed(s, e).Some? then [Obs(Observed(s, e).value)] else [])
  }

  ghost function LastMark(marks: seq<Mark>): Mark {
    if marks == [] then Epoch else marks[|marks| - 1]
  }

  lemma {:induction false} KnownPhaseIsLastMark(c: Config, es: seq<Event>)
    ensures Run(c, es).knownPhase == match LastMark(Marks(c, es)) case Epoch => None case Obs(p) => Some(p)
  {
    if es != [] {
      KnownPhaseIsLastMark(c, es[..|es| - 1]);
      StepSelf(Run(c, es[..|es| - 1]), es[|es| - 1]);
    }
  }

  /** The phases that effects notify of, one for one. */
  function Phases(fx: seq<Effect>): seq<Phase> {
    if fx == [] then [] else (if fx[0].PhaseNotified? then [fx[0].phase] else []) + Phases(fx[1..])
  }

  lemma PhasesCons(x: Effect, fx: seq<Effect>)
    ensures Phases([x] + fx) == (if x.PhaseNotified? then [x.phase] else []) + Phases(fx)
  {
    assert ([x] + fx)[1..] == fx;
  }

  lemma {:induction false} PhasesJoin(a: seq<Effect>, b: seq<Effect>)
    ensures Phases(a + b) == Phases(a) + Phases(b)
  {
    hide *;
    if a == [] {
      NoPhases([]);
      assert a + b == b;
    } else {
      var x, rest := a[0], a[1..];
      PhasesJoin(rest, b);
      PhasesCons(x, rest);
      PhasesCons(x, rest + b);
      assert a == [x] + rest && a + b == [x] + (rest + b);
      Associates(if x.PhaseNotified? then [x.phase] else [], Phases(rest), Phases(b));
    }
  }

  lemma PhasesSnoc(fx: seq<Effect>, x: Effect)
    ensures Phases(fx + [x]) == Phases(fx) + if x.PhaseNotified? then [x.phase] else []
  {
    PhasesJoin(fx, [x]);
    assert [x][1..] == [];
  }

  lemma {:induction false} NoPhases(fx: seq<Effect>)
    requires forall x <- fx :: !x.PhaseNotified?
    ensures Phases(fx) == []
  {
    if fx != [] {
      assert fx[0] in fx;
      NoPhases(fx[1..]);
    }
  }

  lemma StopPhases(o: Out, reason: Reason, graceful: bool)
    ensures Phases(Stop(o, reason, graceful).fx) == Phases(o.fx)
  {
    hide Silence, Phases, Undisturbed, SameWork, SameSelf;
    if o.st.token.Some? { PhasesSnoc(o.fx, ExitedSent(o.st.token.value.attachmentId, reason)); }
    SilenceIsMe(o.st);
  }

  lemma SilenceIsMe(s: State)
    ensures Silence(s).token == s.token
  {
  }

  lemma ListenPhases(o: Out, call: ListenerCall)
    ensures Phases(Listen(o, call).fx) == Phases(o.fx)
  {
    hide Stop, Phases, Undisturbed;
    if call.Stops? { StopPhases(o, call.reason, call.graceful); }
  }

  lemma TerminalPhases(o: Out, reason: Reason)
    ensures Phases(FireTerminal(o, reason).fx) == Phases(o.fx)
  {
    hide Silence, Phases, Undisturbed, SameWork, SameSelf;
    PhasesSnoc(o.fx, TerminalNotified(reason));
  }

  lemma ReconnectPhases(o: Out, reason: Reason, successor: Option<string>, reconnects: bool)
    ensures Phases(FireTerminalOrReconnect(o, reason, successor, reconnects).fx) == Phases(o.fx)
  {
    hide FireTerminal, Phases, AddRoutine, Disarm, Undisturbed, SameWork, SameSelf;
    TerminalPhases(o, reason);
    TerminalPhases(o.(st := o.st.(reconnecting := true, hb := Disarm(o.st.hb), pw := Disarm(o.st.pw))),
      ReconnectExhausted);
  }

  lemma RevokePhases(o: Out, reason: Reason, onRevoked: ListenerCall, reconnects: bool)
    ensures Phases(Revoke(o, reason, onRevoked, reconnects).fx) == Phases(o.fx)
  {
    hide FireTerminalOrReconnect, Listen, Phases, Undisturbed;
    var p := o.(fx := o.fx + [RevokedNotified(reason)]);
    PhasesSnoc(o.fx, RevokedNotified(reason));
    ListenPhases(p, onRevoked);
    ReconnectPhases(Listen(p, onRevoked), reason, None, reconnects);
  }

  lemma NotifyPhases(s: State, info: Info, onPhase: ListenerCall)
    ensures Phases(NotifyPhase(s, info, onPhase).fx) == if s.knownPhase != Some(info.phase) then [info.phase] else []
  {
    hide Listen, Phases, Undisturbed;
    PhasesSnoc([], PhaseNotified(info.phase));
    NoPhases([]);
    assert [] + [PhaseNotified(info.phase)] == [PhaseNotified(info.phase)];
    ListenPhases(Out(s.(knownPhase := Some(info.phase)), [PhaseNotified(info.phase)]), onPhase);
  }

  lemma InfoPhases(s: State, id: nat, info: Info, onPhase: ListenerCall, onRevoked: ListenerCall, reconnects: bool)
    ensures Phases(ReceiveInfo(s, id, info, onPhase, onRevoked, reconnects).fx)
         == if s.knownPhase != Some(info.phase) then [info.phase] else []
  {
    hide NotifyPhase, Revoke, FireTerminal, Finish, Phases, Undisturbed, SameWork, SameSelf;
    var s' := s.(pw := s.pw.(backoff := 0.0));
    var n := NotifyPhase(s', info, onPhase);
    NotifyPhases(s', info, onPhase);
    RevokePhases(n, Superseded, onRevoked, reconnects);
    RevokePhases(n, HeartbeatTimeout, onRevoked, reconnects);
    TerminalPhases(n, Destroy);
  }

  /** A segment notifies at most once, and only of the phase its reply shows. */
  lemma StepPhases(s: State, e: Event)
    ensures Phases(Step(s, e).fx)
         == if Observed(s, e).Some? && s.knownPhase != Observed(s, e) then [Observed(s, e).value] else []
  {
    hide Phases, FireTimer, AcceptHeartbeat, ReceiveInfo, FailTick, ReceiveHistory, ReturnFromTick, ReturnFromHook,
         Wake, ElapseSleep, ReceivePrecheck, FailPrecheck, ReceiveDescribe, FailReclaim, Stop, ArmBoth, FireTerminal,
         EndRoutine;
    if e.WatcherInfo? && Enabled(s, e) {
      InfoPhases(s, e.id, e.info, e.onPhase, e.onRevoked, e.reconnects);
    } else {
      forall x | x in Step(s, e).fx ensures !x.PhaseNotified? {
        if e.WatcherInfo? {
          DisabledStays(s, e);
        } else if Telling(x) {
          RoutineTells(s, e, x);
        }
      }
      NoPhases(Step(s, e).fx);
    }
  }

  /** The phases a run notifies its listeners of: those of everything it did, in order. */
  ghost function Notified(c: Config, es: seq<Event>): seq<Phase> {
    Phases(Trace(c, es))
  }

  /** What is left of the marks when a phase that repeats its predecessor is dropped. */
  ghost function Changes(marks: seq<Mark>): seq<Phase> {
    if marks == [] then []
    else
      var before, last := marks[..|marks| - 1], marks[|marks| - 1];
      Changes(before) + if last.Obs? && LastMark(before) != last then [last.phase] else []
  }

  /** One step notifies of at most one phase: the one observed, when it differs from the last mark of the run. */
  lemma NotifiesChange(c: Config, es: seq<Event>, e: Event, p: Phase)
    ensures PhaseNotified(p) in Step(Run(c, es), e).fx
       <==> Observed(Run(c, es), e) == Some(p) && LastMark(Marks(c, es)) != Obs(p)
  {
    hide Step, Run;
    KnownPhaseIsLastMark(c, es);
    StepPhases(Run(c, es), e);
    PhasesAreMembers(Step(Run(c, es), e).fx, p);
  }

  lemma {:induction false} PhasesAreMembers(fx: seq<Effect>, p: Phase)
    ensures PhaseNotified(p) in fx <==> p in Phases(fx)
  {
    if fx != [] {
      PhasesAreMembers(fx[1..], p);
      assert fx == [fx[0]] + fx[1..];
    }
  }

  /** Listeners hear exactly the observed phases without stutter, afresh after every reclaim and rebind, however
    late a reply arrives.
   */
  lemma {:induction false} PhasesAreStutterFree(c: Config, es: seq<Event>)
    ensures Notified(c, es) == Changes(Marks(c, es))
  {
    hide Step, Run, Phases;
    if es == [] {
      NoPhases([]);
    } else {
      var before, e := es[..|es| - 1], es[|es| - 1];
      PhasesAreStutterFree(c, before);
      KnownPhaseIsLastMark(c, before);
      StepPhases(Run(c, before), e);
      PhasesJoin(Trace(c, before), Step(Run(c, before), e).fx);
      var m := Marks(c, before);
      assert Marks(c, es) == m || Marks(c, es)[..|Marks(c, es)| - 1] == m;
    }
  }
}
