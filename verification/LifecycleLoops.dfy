/** Whole-run theorems on the two tick loops: neither is ever orphaned, and neither doubles unless an RPC outlives
  a recovery.
 */
module LifecycleLoops {
  import opened Options
  import opened Lifecycle
  import opened LifecycleInvariants
  import opened LifecycleRuns
  import LifecycleQuiescence

  /** At every await boundary of every interleaving a started adapter is stopped, or one recovery routine owns the
    timers, or each loop has an armed timer or a tick in flight.
   */
  lemma NoOrphanedLoops(c: Config, es: seq<Event>)
    ensures var s := Run(c, es);
            s.start == Started ==>
              || s.stopped
              || (s.reconnecting && exists r :: s.routines.Keys == {r})
              || (s.routines.Keys == {} && Going(s.hb.Live()) && Going(s.pw.Live()))
  {
    RunKeepsInv(c, es);
    var s := Run(c, es);
    if s.reconnecting {
      var r :| Solo(s.routines.Keys, r);
    }
  }

  // ----- exactly one timer or tick per loop

  ghost predicate Is(live: set<nat>, id: nat) {
    live == {id}
  }

  /** One timer, which `field` remembers, or one tick. */
  ghost predicate Lone(l: Loop) {
    exists id :: Is(l.Live(), id) && (id in l.armed ==> l.field == Some(id))
  }

  /** No timer, and at most the one tick that was in flight when a recovery began. */
  ghost predicate Paused(l: Loop) {
    l.armed.Keys == {} && forall a, b :: a in l.ticks && b in l.ticks ==> a == b
  }

  ghost predicate Single(s: State) {
    s.start == Started && !s.stopped ==>
      if s.reconnecting then Paused(s.hb) && Paused(s.pw) else Lone(s.hb) && Lone(s.pw)
  }

  /** This event ends a recovery. */
  predicate Resumes(s: State, e: Event) {
    Enabled(s, e) && e.HookReturns? && (s.routines[e.routine].RebindResuming? || s.routines[e.routine].LoopResuming?)
  }

  /** A tick's RPC outlives the recovery that ends here. */
  predicate Overlaps(s: State, e: Event) {
    Resumes(s, e) && (s.hb.ticks.Keys != {} || s.pw.ticks.Keys != {})
  }

  lemma DisarmPauses(l: Loop)
    requires Lone(l)
    ensures Paused(Disarm(l))
  {
    var id :| Is(l.Live(), id) && (id in l.armed ==> l.field == Some(id));
    assert forall a :: a in l.armed ==> a in l.Live();
    assert forall a :: a in l.ticks ==> a in l.Live();
  }

  /** The state `t` reached from `s` inside a segment, as far as the loops go. */
  ghost predicate Follows(s: State, t: State) {
    && (s.stopped ==> t.stopped)
    && (|| t.stopped
        || (t.hb == s.hb && t.pw == s.pw && t.reconnecting == s.reconnecting)
        || (t.hb == Disarm(s.hb) && t.pw == Disarm(s.pw) && t.reconnecting && !s.reconnecting))
  }

  lemma ListenFollows(o: Out, call: ListenerCall)
    ensures Listen(o, call).st.stopped || Listen(o, call).st == o.st
  {
  }

  lemma ReconnectFollows(o: Out, reason: Reason, successor: Option<string>, reconnects: bool)
    requires Body(o.st) && o.st.start == Started
    ensures Follows(o.st, FireTerminalOrReconnect(o, reason, successor, reconnects).st)
  {
  }

  lemma RevokeFollows(o: Out, reason: Reason, onRevoked: ListenerCall, reconnects: bool)
    requires Body(o.st) && o.st.start == Started
    ensures Follows(o.st, Revoke(o, reason, onRevoked, reconnects).st)
  {
    hide Listen, FireTerminalOrReconnect, Body;
    var p := o.(fx := o.fx + [RevokedNotified(reason)]);
    ListenFollows(p, onRevoked);
    ListenKeeps(p, onRevoked);
    ReconnectFollows(Listen(p, onRevoked), reason, None, reconnects);
  }

  lemma NotifyFollows(s: State, info: Info, onPhase: ListenerCall)
    ensures var t := NotifyPhase(s, info, onPhase).st; t.stopped || t == s.(knownPhase := Some(info.phase))
  {
    hide Listen;
    ListenFollows(Out(s.(knownPhase := Some(info.phase)), [PhaseNotified(info.phase)]), onPhase);
  }

  lemma InfoFollows(s: State, info: Info, onPhase: ListenerCall, onRevoked: ListenerCall, reconnects: bool)
    requires Inv(s) && s.start == Started
    ensures Follows(s, JudgeInfo(NotifyPhase(s, info, onPhase), info, onRevoked, reconnects).st)
    ensures JudgeInfo(NotifyPhase(s, info, onPhase), info, onRevoked, reconnects).st.start == Started
  {
    hide NotifyPhase, Revoke, FireTerminal, Inv, Body, Undisturbed, SameWork;
    var n := NotifyPhase(s, info, onPhase);
    NotifyPhaseKeeps(s, info, onPhase);
    NotifyFollows(s, info, onPhase);
    if s.stopped { StoppedStaysSo(s, info, onPhase); }
    RevokeFollows(n, Superseded, onRevoked, reconnects);
    RevokeFollows(n, HeartbeatTimeout, onRevoked, reconnects);
    RevokeKeeps(n, Superseded, onRevoked, reconnects);
    RevokeKeeps(n, HeartbeatTimeout, onRevoked, reconnects);
    TerminalKeeps(n, Destroy);
    TerminalStarts(n, Destroy);
  }

  lemma StoppedStaysSo(s: State, info: Info, onPhase: ListenerCall)
    requires s.stopped
    ensures NotifyPhase(s, info, onPhase).st.stopped
  {
  }

  lemma TerminalStarts(o: Out, reason: Reason)
    ensures FireTerminal(o, reason).st.start == o.st.start
  {
  }

  // ----- a tick leaves its loop lone or paused

  lemma FollowsSingle(s: State, t: State)
    requires Single(s) && Follows(s, t) && s.start == t.start == Started
    ensures Single(t)
  {
    if !s.stopped && !s.reconnecting {
      DisarmPauses(s.hb);
      DisarmPauses(s.pw);
    }
  }

  lemma FinishSingle(o: Out, k: LoopKind, id: nat)
    requires Body(o.st) && o.st.start == Started && Holds(o.st, k, id)
    ensures Single(Finish(o, k, id).st)
  {
    var t := Finish(o, k, id).st;
    if !t.stopped && !t.reconnecting {
      var l := o.st.LoopOf(k);
      assert forall a :: a in l.armed ==> a in l.Live() + {id};
      assert forall a :: a in l.ticks ==> a in l.Live() + {id};
      assert Is(t.LoopOf(k).Live(), o.st.nextId);
      forall j ensures Lone(t.LoopOf(j)) {
        if j != k { assert t.LoopOf(j) == o.st.LoopOf(j); }
      }
      assert Lone(t.LoopOf(Heartbeat)) && Lone(t.LoopOf(Watcher));
    }
  }

  /** A loop with a tick in flight has nothing else. */
  lemma LoneTick(l: Loop, id: nat)
    requires Lone(l) && id in l.Live()
    ensures Is(l.Live(), id) && Is(l.Live() + {id}, id)
  {
    var i :| Is(l.Live(), i) && (i in l.armed ==> l.field == Some(i));
  }

  lemma FireTimerSingle(s: State, k: LoopKind, id: nat)
    requires Inv(s) && Single(s) && id in s.LoopOf(k).armed
    ensures Single(FireTimer(s, k, id).st)
  {
    var l := s.LoopOf(k);
    assert id in l.Live();
    var t := s.WithLoop(k, l.(armed := l.armed - {id}));
    if !s.stopped && !s.reconnecting {
      assert Lone(s.LoopOf(Heartbeat)) && Lone(s.LoopOf(Watcher));
      LoneTick(l, id);
      var u := SetTick(t, k, id, Rpc);
      assert Is(u.LoopOf(k).Live(), id);
      forall j ensures Lone(u.LoopOf(j)) {
        if j != k { assert u.LoopOf(j) == s.LoopOf(j); }
      }
      assert Lone(u.LoopOf(Heartbeat)) && Lone(u.LoopOf(Watcher));
    }
  }

  /** A running tick of `s` is the whole of its loop, or the loop is paused. */
  ghost predicate Holds(s: State, k: LoopKind, id: nat) {
    !s.stopped ==>
      && id !in s.LoopOf(k).armed
      && if s.reconnecting then Paused(s.hb) && Paused(s.pw)
         else forall j :: if j == k then Is(s.LoopOf(k).Live() + {id}, id) else Lone(s.LoopOf(j))
  }

  lemma SingleHolds(s: State, k: LoopKind, id: nat)
    requires Inv(s) && Single(s) && s.start == Started && id in s.LoopOf(k).ticks
    ensures Holds(s, k, id)
  {
    if !s.stopped && !s.reconnecting {
      assert Lone(s.LoopOf(Heartbeat)) && Lone(s.LoopOf(Watcher));
      assert id in s.LoopOf(k).Live();
      LoneTick(s.LoopOf(k), id);
    }
  }

  lemma AcceptSingle(s: State, id: nat)
    requires Inv(s) && Single(s) && id in s.hb.ticks
    ensures Single(AcceptHeartbeat(s, id).st)
  {
    assert id in s.hb.Live();
    SingleHolds(s, Heartbeat, id);
    FinishSingle(Out(s.(hb := s.hb.(backoff := 0.0)), []), Heartbeat, id);
  }

  lemma ReturnSingle(s: State, k: LoopKind, id: nat, handled: bool)
    requires Inv(s) && Single(s) && id in s.LoopOf(k).ticks
    ensures Single(ReturnFromTick(s, k, id, handled).st)
  {
    assert id in s.LoopOf(k).Live();
    SingleHolds(s, k, id);
    var l := s.LoopOf(k);
    var t := if handled then s else s.WithLoop(k, l.(backoff := NextTickBackoff(l.backoff, s.config.heartbeatMs)));
    FinishSingle(Out(t, []), k, id);
  }

  lemma SetTickSingle(s: State, k: LoopKind, id: nat, pc: TickPc)
    requires Single(s) && id in s.LoopOf(k).ticks
    ensures Single(SetTick(s, k, id, pc))
  {
    var t := SetTick(s, k, id, pc);
    assert t.LoopOf(k).Live() == s.LoopOf(k).Live();
    if s.start == Started && !s.stopped && !s.reconnecting {
      var i :| Is(s.LoopOf(k).Live(), i) && (i in s.LoopOf(k).armed ==> s.LoopOf(k).field == Some(i));
      assert Is(t.LoopOf(k).Live(), i);
    }
  }

  /** Forgetting the watcher's backoff keeps the invariants. */
  lemma QuietWatcher(s: State, id: nat)
    requires Inv(s) && Single(s) && id in s.pw.ticks
    ensures var t := s.(pw := s.pw.(backoff := 0.0)); Inv(t) && Single(t) && t.start == Started
  {
    assert id in s.pw.Live();
    var t := s.(pw := s.pw.(backoff := 0.0));
    assert t.pw.Live() == s.pw.Live();
    assert Lone(s.pw) ==> Lone(t.pw);
    assert Paused(s.pw) ==> Paused(t.pw);
  }

  lemma InfoSingle(s: State, id: nat, info: Info, onPhase: ListenerCall, onRevoked: ListenerCall, reconnects: bool)
    requires Inv(s) && Single(s) && id in s.pw.ticks
    ensures Single(ReceiveInfo(s, id, info, onPhase, onRevoked, reconnects).st)
  {
    hide NotifyPhase, JudgeInfo, Finish, Single, Holds, Follows;
    var s' := s.(pw := s.pw.(backoff := 0.0));
    QuietWatcher(s, id);
    var o := JudgeInfo(NotifyPhase(s', info, onPhase), info, onRevoked, reconnects);
    NotifyPhaseKeeps(s', info, onPhase);
    JudgeInfoKeeps(NotifyPhase(s', info, onPhase), info, onRevoked, reconnects);
    InfoFollows(s', info, onPhase, onRevoked, reconnects);
    FollowsHolds(s', o.st, id);
    FinishSingle(o, Watcher, id);
  }

  lemma FollowsHolds(s: State, t: State, id: nat)
    requires Inv(s) && Single(s) && s.start == Started && id in s.pw.ticks && Follows(s, t)
    ensures Holds(t, Watcher, id)
  {
    SingleHolds(s, Watcher, id);
    if !s.stopped && !s.reconnecting {
      DisarmPauses(s.hb);
      DisarmPauses(s.pw);
    }
  }

  lemma HistorySingle(s: State, k: LoopKind, id: nat, history: Option<seq<string>>, reconnects: bool)
    requires Inv(s) && Single(s) && id in s.LoopOf(k).ticks
    ensures Single(ReceiveHistory(s, k, id, history, reconnects).st)
  {
    hide FireTerminal, FireTerminalOrReconnect, SetTick, FindSuccessor, Follows, Single;
    assert id in s.LoopOf(k).Live();
    var o := Out(SetTick(s, k, id, Verdict(true)), []);
    SetTickKeeps(s, k, id, Verdict(true));
    SetTickSingle(s, k, id, Verdict(true));
    ReconnectFollows(o, ContinuedAsNew, FindSuccessor(history), reconnects);
    ReconnectKeeps(o, ContinuedAsNew, FindSuccessor(history), reconnects);
    TerminalKeeps(o, Destroy);
    FollowsSingle(o.st, ReceiveHistory(s, k, id, history, reconnects).st);
  }

  lemma HeadSingle(s: State, r: nat, v: LoopVars)
    requires Inv(s) && Single(s)
    ensures Single(LoopHead(Out(s, []), r, v).st) && Single(Retry(Out(s, []), r, v).st)
  {
  }

  /** What the end of a recovery arms: each loop gains one timer. */
  lemma ResumeCounts(s: State, r: nat)
    requires Inv(s) && Single(s) && s.start == Started && r in s.routines && s.reconnecting && !s.stopped
    ensures var t := Resume(Out(s, []), r).st;
            && t.hb.Live() == s.hb.ticks.Keys + {s.nextId} && t.hb.field == Some(s.nextId)
            && t.pw.Live() == s.pw.ticks.Keys + {s.nextId + 1} && t.pw.field == Some(s.nextId + 1)
            && !t.stopped && !t.reconnecting && t.start == Started
  {
  }

  lemma ResumeSingle(s: State, r: nat)
    requires Inv(s) && Single(s) && s.start == Started && r in s.routines
    requires s.hb.ticks.Keys == {} && s.pw.ticks.Keys == {}
    ensures Single(Resume(Out(s, []), r).st)
  {
    if !s.stopped {
      ResumeCounts(s, r);
      var t := Resume(Out(s, []), r).st;
      assert Is(t.hb.Live(), s.nextId) && Is(t.pw.Live(), s.nextId + 1);
    }
  }

  lemma HookSingle(s: State, e: Event)
    requires Inv(s) && Single(s) && Enabled(s, e) && !Overlaps(s, e) && e.HookReturns?
    ensures Single(Step(s, e).st)
  {
    hide Resume, LoopHead;
    var r := e.routine;
    if Resumes(s, e) {
      ResumeSingle(s, r);
    } else if s.routines[r].LoopStarting? {
      HeadSingle(s, r, LoopVars(s.routines[r].oldAttachmentId, s.now + s.config.budgetMs, s.config.baseMs, 0));
    }
  }

  lemma GiveSingle(s: State, r: nat, reason: Reason)
    requires Inv(s) && Single(s) && r in s.routines
    ensures Single(Give(Out(s, []), r, reason).st)
  {
    hide FireTerminal;
    TerminalKeeps(Out(s, []), reason);
  }

  lemma AttemptSingle(s: State, e: Event)
    requires Inv(s) && Single(s) && Enabled(s, e)
    requires e.PrecheckInfo? || e.PrecheckFails? || e.DescribeReply? || e.ReclaimGranted? || e.ReclaimFails?
    ensures Single(Step(s, e).st)
  {
    hide Retry, Give;
    GiveSingle(s, e.routine, Destroy);
    GiveSingle(s, e.routine, Superseded);
    HeadSingle(s, e.routine, s.routines[e.routine].vars);
  }

  lemma EndSingle(s: State, e: Event)
    requires Inv(s) && Single(s) && Enabled(s, e) && (e.Wakes? || e.Crashes?)
    ensures Single(Step(s, e).st)
  {
    if e.Crashes? {
      EndKeeps(Out(s, []), e.routine);
      TerminalKeeps(EndRoutine(Out(s, []), e.routine), ReconnectExhausted);
    }
  }

  lemma StartSingle(s: State, token: Token)
    requires Inv(s) && s.start == Claiming
    ensures Single(Step(s, StartReply(Some(token))).st)
  {
    var t := Step(s, StartReply(Some(token))).st;
    assert forall id :: id in s.hb.armed || id in s.hb.ticks ==> id in s.hb.Live();
    assert forall id :: id in s.pw.armed || id in s.pw.ticks ==> id in s.pw.Live();
    assert Is(t.hb.Live(), s.nextId) && Is(t.pw.Live(), s.nextId + 1);
  }

  lemma StepKeepsSingle(s: State, e: Event)
    requires Inv(s) && Single(s) && !Overlaps(s, e)
    ensures Single(Step(s, e).st)
  {
    hide FireTimer, AcceptHeartbeat, ReceiveInfo, FailTick, ReceiveHistory, ReturnFromTick, ReturnFromHook, Wake,
         ReceivePrecheck, FailPrecheck, ReceiveDescribe, FailReclaim, FireTerminal, EndRoutine, ArmBoth, Stop,
         SetRoutine, Repoint;
    if Enabled(s, e) {
      match e
      case CallStart | SubclassSleeps(_) | ClockAdvances(_) | SleepElapses(_) =>
      case StartReply(reply) => if reply.Some? { StartSingle(s, reply.value); }
      case CallStop(reason, graceful) => StopKeeps(Out(s, []), reason, graceful);
      case TimerFires(k, id) => FireTimerSingle(s, k, id);
      case HeartbeatAccepted(id) => AcceptSingle(s, id);
      case WatcherInfo(id, info, onPhase, onRevoked, reconnects) =>
        InfoSingle(s, id, info, onPhase, onRevoked, reconnects);
      case TickFails(k, id, terminal) => FailSingle(s, k, id, terminal);
      case HistoryReply(k, id, history, reconnects) => HistorySingle(s, k, id, history, reconnects);
      case TickReturns(k, id) => ReturnSingle(s, k, id, s.LoopOf(k).ticks[id].handled);
      case HookReturns(_) => HookSingle(s, e);
      case Wakes(_) => EndSingle(s, e);
      case Crashes(_) => EndSingle(s, e);
      case _ => AttemptSingle(s, e);
    }
  }

  lemma FailSingle(s: State, k: LoopKind, id: nat, terminal: bool)
    requires Single(s) && id in s.LoopOf(k).ticks
    ensures Single(FailTick(s, k, id, terminal).st)
  {
    SetTickSingle(s, k, id, if terminal then History else Verdict(false));
  }

  /** In this run no tick's RPC outlives a recovery of a running adapter. */
  ghost predicate OverlapFree(c: Config, es: seq<Event>) {
    forall i | 0 <= i < |es| :: Run(c, es[..i]).stopped || !Overlaps(Run(c, es[..i]), es[i])
  }

  lemma SingleOn(s: State, e: Event)
    requires Inv(s) && Single(s) && (s.stopped || !Overlaps(s, e))
    ensures Single(Step(s, e).st)
  {
    hide Step, Inv, Overlaps;
    if s.stopped {
      LifecycleQuiescence.StopRunsDown(s, e);
    } else {
      StepKeepsSingle(s, e);
    }
  }

  /** In such a run each loop of a started, running adapter is exactly one armed timer or one tick in flight, and
    neither loop has a timer while a recovery is under way.
   */
  lemma {:induction false} ExactlyOneEach(c: Config, es: seq<Event>)
    requires OverlapFree(c, es)
    ensures Single(Run(c, es))
  {
    hide Step, Single, Inv, Overlaps;
    if es == [] {
      FreshIsSingle(c);
    } else {
      var before := es[..|es| - 1];
      PrefixOverlapFree(c, es, |before|);
      ExactlyOneEach(c, before);
      RunKeepsInv(c, before);
      SingleOn(Run(c, before), es[|es| - 1]);
    }
  }

  lemma FreshIsSingle(c: Config)
    ensures Single(Init(c))
  {
  }

  lemma PrefixOverlapFree(c: Config, es: seq<Event>, n: nat)
    requires OverlapFree(c, es) && n <= |es|
    ensures OverlapFree(c, es[..n])
  {
    hide Run, Overlaps;
    var before := es[..n];
    forall i | 0 <= i < n ensures Run(c, before[..i]).stopped || !Overlaps(Run(c, before[..i]), before[i]) {
      assert before[..i] == es[..i] && before[i] == es[i];
    }
  }

  /** The condition is exact: the recovery that ends here leaves each loop single if and only if none of that loop's
    ticks is still in flight.
   */
  lemma ResumeSinglesExactly(s: State, e: Event)
    requires Inv(s) && Single(s) && s.start == Started && !s.stopped && Resumes(s, e)
    ensures Lone(Step(s, e).st.hb) <==> s.hb.ticks.Keys == {}
    ensures Lone(Step(s, e).st.pw) <==> s.pw.ticks.Keys == {}
  {
    hide Resume;
    var t := Step(s, e).st;
    ResumeCounts(s, e.routine);
    LoneExactly(t.hb, s.hb.ticks.Keys, s.nextId);
    LoneExactly(t.pw, s.pw.ticks.Keys, s.nextId + 1);
  }

  lemma LoneExactly(l: Loop, ticks: set<nat>, id: nat)
    requires l.Live() == ticks + {id} && id !in ticks && l.field == Some(id)
    ensures Lone(l) <==> ticks == {}
  {
    if ticks == {} {
      assert Is(l.Live(), id);
    } else {
      var a :| a in ticks;
      assert a in l.Live() && id in l.Live() && a != id;
    }
  }

  lemma OverlapIsSeen(s: State, e: Event)
    requires Inv(s) && Single(s) && !s.stopped && Overlaps(s, e)
    ensures !Single(Step(s, e).st)
  {
    hide Step, Lone;
    ResumingIsStarted(s, e);
    ResumeSinglesExactly(s, e);
    ResumedStep(s, e);
  }

  lemma ResumingIsStarted(s: State, e: Event)
    requires Inv(s) && Resumes(s, e)
    ensures s.start == Started
  {
  }

  lemma ResumedStep(s: State, e: Event)
    requires Inv(s) && Single(s) && s.start == Started && !s.stopped && Resumes(s, e)
    ensures var t := Step(s, e).st; t.start == Started && !t.stopped && !t.reconnecting
  {
    hide Resume, Single;
    ResumeCounts(s, e.routine);
  }

  /**
   * Over whole runs: both loops are single all along if and only if no tick outlives a recovery while
   * the adapter runs.
   */
  lemma SingleExactly(c: Config, es: seq<Event>)
    ensures (forall i | 0 <= i <= |es| :: Single(Run(c, es[..i]))) <==> OverlapFree(c, es)
  {
    hide Step, Run, Single, Overlaps, Inv;
    if OverlapFree(c, es) {
      forall i | 0 <= i <= |es| ensures Single(Run(c, es[..i])) {
        PrefixOverlapFree(c, es, i);
        ExactlyOneEach(c, es[..i]);
      }
    } else {
      var i :| 0 <= i < |es| && !Run(c, es[..i]).stopped && Overlaps(Run(c, es[..i]), es[i]);
      if Single(Run(c, es[..i])) {
        RunKeepsInv(c, es[..i]);
        OverlapIsSeen(Run(c, es[..i]), es[i]);
        RunTakes(c, es, i);
      }
    }
  }

  lemma RunTakes(c: Config, es: seq<Event>, i: nat)
    requires i < |es|
    ensures Run(c, es[..i + 1]) == Step(Run(c, es[..i]), es[i]).st
  {
    hide Step;
    assert es[..i + 1][..i] == es[..i];
  }

  /** Without the condition it fails: a heartbeat signal in flight while the watcher rebinds to a continue-as-new
    successor leaves two heartbeat loops.
   */
  lemma OverlapDoublesTheHeartbeat(c: Config, t: Token)
    requires c.Valid()
    ensures exists es :: var s := Run(c, es); !s.stopped && !s.reconnecting && s.hb.Live() == {0, 3}
  {
    hide Step, Steps, Run;
    AttachRuns(c, t);
    BothAreSent(c, t);
    RebindRuns(c, t, "successor");
    RunResumes(c, Attach(t), SendBoth(c));
    RunResumes(c, Attach(t) + SendBoth(c), RebindMeanwhile("successor"));
    assert DoubledUp(c, t, "successor").hb.Live() == {0, 3};
  }
}
