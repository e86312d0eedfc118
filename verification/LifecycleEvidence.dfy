/**
 * Whose history a tick consults. `handleRunEndError` asks the history of the run that is pinned when the tick's RPC
 * fails (`src/adapters/base.ts:779-820`), which is the run the RPC went to only as long as nothing moved the handle.
 */
module LifecycleEvidence {
  import opened Options
  import opened Lifecycle
  import opened LifecycleHistory
  import opened LifecycleInvariants
  import opened LifecycleRuns
  import opened LifecycleTerminal
  import opened LifecycleTicks

  /** The RPC of a tick of loop `k`, sent by the attachment `t` to its run. */
  function Asks(k: LoopKind, t: Token): Effect {
    match k
    case Heartbeat => HeartbeatSent(t.attachmentId, t.runId)
    case Watcher => QuerySent(t.runId)
  }

  lemma TimerAsks(s: State, k: LoopKind, id: nat)
    requires Inv(s) && Enabled(s, TimerFires(k, id)) && !Held(s)
    ensures s.token.Some? && s.pinned == Some(s.token.value.runId)
    ensures Step(s, TimerFires(k, id)).fx == [Asks(k, s.token.value)]
  {
    hide SetTick, Finish;
  }

  lemma ErrorAsksHistory(s: State, k: LoopKind, id: nat)
    requires Inv(s) && Enabled(s, TickFails(k, id, true))
    ensures s.start == Started && s.token.Some? && s.pinned == Some(s.token.value.runId)
    ensures Step(s, TickFails(k, id, true)).fx == [HistorySent(s.token.value.runId)]
  {
    hide SetTick;
    assert id in s.LoopOf(k).Live();
  }

  /** A tick that waits for its RPC has sent it when its timer fired, and waited ever since. */
  lemma {:induction false} RpcWasSent(c: Config, es: seq<Event>, k: LoopKind, id: nat) returns (j: nat)
    requires Waits(Run(c, es), k, id, Rpc)
    ensures j < |es| && es[j] == TimerFires(k, id) && Enabled(Run(c, es[..j]), es[j]) && !Held(Run(c, es[..j]))
    ensures forall n | j < n <= |es| :: Waits(Run(c, es[..n]), k, id, Rpc)
  {
    hide Step;
    var n := |es| - 1;
    assert es[..|es|] == es;
    if Waits(Run(c, es[..n]), k, id, Rpc) {
      j := RpcWasSent(c, es[..n], k, id);
      assert es[..n][..j] == es[..j];
      forall m | j < m <= |es| ensures Waits(Run(c, es[..m]), k, id, Rpc) {
        if m <= n {
          assert es[..n][..m] == es[..m];
        }
      }
    } else {
      WaitBegins(Run(c, es[..n]), es[n], k, id, Rpc);
      j := n;
    }
  }

  /** No reclaim and no rebind from the `j`-th event up to the `m`-th. */
  ghost predicate Unmoved(c: Config, es: seq<Event>, j: nat, m: nat)
    requires j <= m <= |es|
  {
    forall n | j <= n < m :: !OpensEpoch(Run(c, es[..n]), es[n])
  }

  lemma StepStays(s: State, e: Event)
    requires Inv(s) && s.start == Started && !OpensEpoch(s, e)
    ensures Step(s, e).st.start == Started && Step(s, e).st.token == s.token
  {
    hide Step;
    StepSelf(s, e);
  }

  lemma {:induction false} TokenStays(c: Config, es: seq<Event>, j: nat, m: nat)
    requires j <= m <= |es| && Unmoved(c, es, j, m) && Run(c, es[..j]).start == Started
    ensures Run(c, es[..m]).start == Started && Run(c, es[..m]).token == Run(c, es[..j]).token
  {
    hide Step, OpensEpoch;
    if j < m {
      TokenStays(c, es, j, m - 1);
      RunKeepsInv(c, es[..m - 1]);
      assert es[..m][..m - 1] == es[..m - 1];
      StepStays(Run(c, es[..m - 1]), es[m - 1]);
    }
  }

  /**
   * Behind every history that a tick consults are its RPC, sent by the `j`-th event, and the failure of that RPC, the
   * `m`-th. The RPC went to the run last claimed or rebound to before `j`, the history is that of the run last claimed
   * or rebound to before `m`, and so the history is about the run whose RPC failed if and only if these are one; which
   * they are when there was no reclaim and no rebind in between.
   */
  lemma HistoryOfWhichRun(c: Config, es: seq<Event>, i: nat) returns (j: nat, m: nat)
    requires i < |es| && es[i].HistoryReply? && Enabled(Run(c, es[..i]), es[i])
    ensures j < m < i && es[j] == TimerFires(es[i].kind, es[i].id) && es[m] == TickFails(es[i].kind, es[i].id, true)
    ensures forall n | j < n <= m :: Waits(Run(c, es[..n]), es[i].kind, es[i].id, Rpc)
    ensures LastRun(c, es[..j]).Some? && LastRun(c, es[..m]).Some?
    ensures exists t: Token :: t.runId == LastRun(c, es[..j]).value && At(c, es, j).fx == [Asks(es[i].kind, t)]
    ensures At(c, es, m).fx == [HistorySent(LastRun(c, es[..m]).value)]
    ensures Unmoved(c, es, j, m) ==> LastRun(c, es[..j]) == LastRun(c, es[..m])
  {
    hide Step, Run, LastRun, LastClaim, Unmoved, Waits, OpensEpoch;
    var k, id := es[i].kind, es[i].id;
    assert Waits(Run(c, es[..i]), k, id, History) by { HistoryIsAwaited(Run(c, es[..i]), es[i]); }
    HistoryAfterTerminalError(c, es[..i], k, id);
    m :| 0 <= m < i && es[..i][m] == TickFails(k, id, true) && Enabled(Run(c, es[..i][..m]), es[m]);
    assert es[..i][..m] == es[..m];
    RpcIsAwaited(Run(c, es[..m]), k, id);
    j := RpcWasSent(c, es[..m], k, id);
    assert es[..m][..j] == es[..j];
    forall n | j < n <= m ensures Waits(Run(c, es[..n]), k, id, Rpc) {
      assert es[..m][..n] == es[..n];
    }
    RunKeepsInv(c, es[..j]);
    RunKeepsInv(c, es[..m]);
    TimerAsks(Run(c, es[..j]), k, id);
    ErrorAsksHistory(Run(c, es[..m]), k, id);
    IdentityIsLastClaim(c, es[..j]);
    IdentityIsLastClaim(c, es[..m]);
    assert At(c, es, j).fx == [Asks(k, Run(c, es[..j]).token.value)];
    if Unmoved(c, es, j, m) {
      TokenStays(c, es, j, m);
    }
  }

  lemma HistoryIsAwaited(s: State, e: Event)
    requires e.HistoryReply? && Enabled(s, e)
    ensures Waits(s, e.kind, e.id, History)
  {
  }

  lemma RpcIsAwaited(s: State, k: LoopKind, id: nat)
    requires Enabled(s, TickFails(k, id, true))
    ensures Waits(s, k, id, Rpc)
  {
  }

  /**
   * They need not be one: a heartbeat goes to a run that is continued as new, the adapter rebinds to the successor, the
   * heartbeat fails, and the history of the successor, which has no successor itself, is taken for the end of the
   * workflow.
   */
  lemma DestroyOnTheWrongRun(c: Config, t: Token, successor: string)
    requires c.Valid() && successor != "" && successor != t.runId
    ensures exists es: seq<Event>, j: nat, m: nat ::
      && j < m < |es| - 1
      && es[j] == TimerFires(Heartbeat, 0) && At(c, es, j).fx == [HeartbeatSent(t.attachmentId, t.runId)]
      && es[m] == TickFails(Heartbeat, 0, true) && At(c, es, m).fx == [HistorySent(successor)]
      && At(c, es, |es| - 1).fx == [TerminalNotified(Destroy)]
  {
    hide Step, Steps, Run;
    AttachRuns(c, t);
    BothAreSent(c, t);
    RebindRuns(c, t, successor);
    var start := Attach(t) + [ClockAdvances(c.heartbeatMs * 5.0)];
    RunSnoc(c, Attach(t), ClockAdvances(c.heartbeatMs * 5.0));
    TimePasses(JustClaimed(c, t), c.heartbeatMs * 5.0);
    HeartbeatGoesOut(JustClaimed(c, t).(now := c.heartbeatMs * 5.0));
    var rebound := Attach(t) + SendBoth(c) + RebindMeanwhile(successor);
    RunResumes(c, Attach(t), SendBoth(c));
    RunResumes(c, Attach(t) + SendBoth(c), RebindMeanwhile(successor));
    var failed := rebound + [TickFails(Heartbeat, 0, true)];
    RunSnoc(c, rebound, TickFails(Heartbeat, 0, true));
    var es := failed + [HistoryReply(Heartbeat, 0, Some([]), true)];
    HeartbeatFails(DoubledUp(c, t, successor));
    NoSuccessorDestroys(Run(c, failed));
    assert es[..3] == start && es[3] == TimerFires(Heartbeat, 0);
    assert es[..|rebound|] == rebound && es[|rebound|] == TickFails(Heartbeat, 0, true);
    assert es[..|es| - 1] == failed;
    assert At(c, es, 3).fx == [HeartbeatSent(t.attachmentId, t.runId)];
    assert At(c, es, |rebound|).fx == [HistorySent(successor)];
    assert At(c, es, |es| - 1).fx == [TerminalNotified(Destroy)];
  }

  lemma HeartbeatFails(s: State)
    requires s.hb.ticks == map[0 := Rpc] && s.pinned.Some?
    ensures Step(s, TickFails(Heartbeat, 0, true))
         == Out(s.(hb := s.hb.(ticks := map[0 := History])), [HistorySent(s.pinned.value)])
  {
  }

  lemma NoSuccessorDestroys(s: State)
    requires s.hb.ticks == map[0 := History] && !s.terminalFired
    ensures Step(s, HistoryReply(Heartbeat, 0, Some([]), true)).fx == [TerminalNotified(Destroy)]
  {
    hide Silence, Undisturbed, SameWork, SameSelf;
  }
}
