/**
 * Finding a player's session (src/activities/resolve.ts:82-177) when the visibility index
 * lags behind the workflow store: any subset of the running sessions may be listed, in any
 * order; any of them may fail to answer; and the scan may run out of time.
 */
module Lookup {
  import opened Options

  /** A session's metadata. `initial` is the name it was spawned under; `player` may differ. */
  datatype Session = Session(ensemble: string, player: string, initial: string)

  /**
   * One listed workflow: whether the deadline had passed when it was fetched, and what its
   * metadata query answered, if it answered in time.
   */
  datatype Entry = Entry(id: string, late: bool, answer: Option<Session>)

  datatype ListEnd = Exhausted | Broke

  datatype Description = Running | Closed | NoAnswer

  datatype Result = Found(id: string) | TimedOut(scanned: nat) | ListFailed | NotFound

  const PREFIX := "agent-session-"

  function SessionWorkflowId(ensemble: string, player: string): string {
    PREFIX + ensemble + "-" + player
  }

  predicate Matches(e: Entry, ensemble: string, player: string) {
    e.answer.Some? && e.answer.value.ensemble == ensemble && e.answer.value.player == player
  }

  /** Where the scan stops: at a late entry or at the first one that is the player. */
  function Stop(entries: seq<Entry>, ensemble: string, player: string): (n: nat)
    ensures n <= |entries|
    ensures forall k | 0 <= k < n :: !entries[k].late && !Matches(entries[k], ensemble, player)
    ensures n < |entries| ==> entries[n].late || Matches(entries[n], ensemble, player)
  {
    if entries == [] || entries[0].late || Matches(entries[0], ensemble, player) then 0
    else 1 + Stop(entries[1..], ensemble, player)
  }

  function Resolve(entries: seq<Entry>, end: ListEnd, description: Description, ensemble: string,
      player: string): Result {
    var n := Stop(entries, ensemble, player);
    if n < |entries| then if entries[n].late then TimedOut(n) else Found(entries[n].id)
    else if end.Broke? then ListFailed
    else if description.Running? then Found(SessionWorkflowId(ensemble, player))
    else NotFound
  }

  method ResolveSession(entries: seq<Entry>, end: ListEnd, description: Description, ensemble: string, player: string)
    returns (r: Result)
    ensures r == Resolve(entries, end, description, ensemble, player)
  {
    var count := 0;
    while count < |entries|
      invariant count <= |entries|
      invariant forall k | 0 <= k < count :: !entries[k].late && !Matches(entries[k], ensemble, player)
    {
      var entry := entries[count];
      if entry.late { return TimedOut(count); }
      if entry.answer.Some? {
        var metadata := entry.answer.value;
        if metadata.ensemble == ensemble && metadata.player == player { return Found(entry.id); }
      }
      count := count + 1;
    }
    if end.Broke? { return ListFailed; }
    r := if description.Running? then Found(SessionWorkflowId(ensemble, player)) else NotFound;
  }

  // ---------------------------------------------------------------------------------------
  // Workflow ids
  // ---------------------------------------------------------------------------------------

  predicate HyphenFree(s: string) {
    '-' !in s
  }

  /** `a` names a longer ensemble than `b`, and the hyphens make up the difference. */
  ghost predicate Confusable(ensembleA: string, playerA: string, ensembleB: string, playerB: string) {
    exists x: string :: ensembleA == ensembleB + "-" + x && playerB == x + "-" + playerA
  }

  lemma LongerEnsemble(ensembleA: string, playerA: string, ensembleB: string, playerB: string)
    requires ensembleA + "-" + playerA == ensembleB + "-" + playerB
    requires |ensembleA| > |ensembleB|
    ensures Confusable(ensembleA, playerA, ensembleB, playerB)
  {
    var s, n := ensembleA + "-" + playerA, |ensembleB|;
    var x := ensembleA[n + 1..];
    assert s[..n] == ensembleB && s[n] == '-' && s[n + 1..] == playerB;
    assert s[..|ensembleA|] == ensembleA;
    assert ensembleA[..n] == ensembleB && ensembleA[n] == '-';
    assert ensembleA == ensembleB + "-" + x;
    assert s[n + 1..] == x + "-" + playerA;
  }

  lemma ConfusableIdsAgree(ensembleA: string, playerA: string, ensembleB: string, playerB: string)
    requires Confusable(ensembleA, playerA, ensembleB, playerB)
    ensures ensembleA + "-" + playerA == ensembleB + "-" + playerB
  {
    var x: string :| ensembleA == ensembleB + "-" + x && playerB == x + "-" + playerA;
    assert ensembleB + "-" + x + "-" + playerA == ensembleB + "-" + (x + "-" + playerA);
  }

  lemma SameEnsembleLength(ensembleA: string, playerA: string, ensembleB: string, playerB: string)
    requires ensembleA + "-" + playerA == ensembleB + "-" + playerB
    requires |ensembleA| == |ensembleB|
    ensures ensembleA == ensembleB && playerA == playerB
  {
    var sa, sb := ensembleA + "-" + playerA, ensembleB + "-" + playerB;
    assert sa[..|ensembleA|] == ensembleA && sb[..|ensembleA|] == ensembleB;
    assert sa[|ensembleA| + 1..] == playerA && sb[|ensembleA| + 1..] == playerB;
  }

  lemma PrefixCancels(ensembleA: string, playerA: string, ensembleB: string, playerB: string)
    ensures SessionWorkflowId(ensembleA, playerA) == SessionWorkflowId(ensembleB, playerB) <==>
      ensembleA + "-" + playerA == ensembleB + "-" + playerB
  {
    var a, b := SessionWorkflowId(ensembleA, playerA), SessionWorkflowId(ensembleB, playerB);
    assert a[|PREFIX|..] == ensembleA + "-" + playerA && b[|PREFIX|..] == ensembleB + "-" + playerB;
    assert a == PREFIX + (ensembleA + "-" + playerA) && b == PREFIX + (ensembleB + "-" + playerB);
  }

  /** Two players share a workflow id exactly when they are one or a hyphen can be read both ways. */
  lemma SameWorkflowId(ensembleA: string, playerA: string, ensembleB: string, playerB: string)
    ensures SessionWorkflowId(ensembleA, playerA) == SessionWorkflowId(ensembleB, playerB) <==>
      || (ensembleA == ensembleB && playerA == playerB)
      || Confusable(ensembleA, playerA, ensembleB, playerB)
      || Confusable(ensembleB, playerB, ensembleA, playerA)
  {
    hide SessionWorkflowId, Confusable;
    PrefixCancels(ensembleA, playerA, ensembleB, playerB);
    if ensembleA + "-" + playerA == ensembleB + "-" + playerB {
      if |ensembleA| > |ensembleB| {
        LongerEnsemble(ensembleA, playerA, ensembleB, playerB);
      } else if |ensembleA| < |ensembleB| {
        LongerEnsemble(ensembleB, playerB, ensembleA, playerA);
      } else {
        SameEnsembleLength(ensembleA, playerA, ensembleB, playerB);
      }
    } else if Confusable(ensembleA, playerA, ensembleB, playerB) {
      ConfusableIdsAgree(ensembleA, playerA, ensembleB, playerB);
    } else if Confusable(ensembleB, playerB, ensembleA, playerA) {
      ConfusableIdsAgree(ensembleB, playerB, ensembleA, playerA);
    }
  }

  lemma ConfusableHasHyphen(ensembleA: string, playerA: string, ensembleB: string, playerB: string)
    ensures Confusable(ensembleA, playerA, ensembleB, playerB) ==> !HyphenFree(ensembleA)
  {
    if Confusable(ensembleA, playerA, ensembleB, playerB) {
      var x: string :| ensembleA == ensembleB + "-" + x && playerB == x + "-" + playerA;
      assert ensembleA[|ensembleB|] == '-';
    }
  }

  /** With ensemble names free of hyphens the id names one player of one ensemble. */
  lemma WorkflowIdIsInjective(ensembleA: string, playerA: string, ensembleB: string, playerB: string)
    requires HyphenFree(ensembleA) && HyphenFree(ensembleB)
    requires SessionWorkflowId(ensembleA, playerA) == SessionWorkflowId(ensembleB, playerB)
    ensures ensembleA == ensembleB && playerA == playerB
  {
    SameWorkflowId(ensembleA, playerA, ensembleB, playerB);
    ConfusableHasHyphen(ensembleA, playerA, ensembleB, playerB);
    ConfusableHasHyphen(ensembleB, playerB, ensembleA, playerA);
  }

  // ---------------------------------------------------------------------------------------
  // What a lookup can be trusted with
  // ---------------------------------------------------------------------------------------

  /** The running sessions by workflow id: each runs under the id its first name gave it. */
  predicate World(running: map<string, Session>) {
    forall id <- running :: id == SessionWorkflowId(running[id].ensemble, running[id].initial)
  }

  /** Whoever answers is running and says what it is; nothing is said about who is listed. */
  predicate Truthful(entries: seq<Entry>, running: map<string, Session>) {
    forall e <- entries :: e.answer.Some? ==> e.id in running && running[e.id] == e.answer.value
  }

  /** The point read by id sees the store itself. */
  predicate Describes(description: Description, running: map<string, Session>, id: string) {
    && (description.Running? ==> id in running)
    && (description.Closed? ==> id !in running)
  }

  predicate InTime(entries: seq<Entry>) {
    forall e <- entries :: !e.late
  }

  predicate Listed(entries: seq<Entry>, ensemble: string, player: string) {
    exists e <- entries :: Matches(e, ensemble, player)
  }

  /**
   * A running player that was never renamed is found whatever the index shows, provided the
   * scan comes to its end in time and the point read answers.
   */
  lemma RunningPlayerIsFound(entries: seq<Entry>, description: Description, running: map<string, Session>,
                             ensemble: string, player: string)
    requires Truthful(entries, running) && InTime(entries)
    requires SessionWorkflowId(ensemble, player) in running
    requires running[SessionWorkflowId(ensemble, player)] == Session(ensemble, player, player)
    requires Describes(description, running, SessionWorkflowId(ensemble, player)) && !description.NoAnswer?
    ensures var r := Resolve(entries, Exhausted, description, ensemble, player);
      r.Found? && r.id in running && running[r.id].ensemble == ensemble && running[r.id].player == player
  {
    var n := Stop(entries, ensemble, player);
    if n < |entries| {
      assert entries[n] in entries;
    }
  }

  /**
   * Absence is reported exactly when the whole list was read in time without meeting the
   * player and the point read did not see it running; a scan cut short is never absence.
   */
  lemma AbsenceNeedsAFullScan(entries: seq<Entry>, end: ListEnd, description: Description, ensemble: string,
      player: string)
    ensures Resolve(entries, end, description, ensemble, player).NotFound? <==>
      InTime(entries) && !Listed(entries, ensemble, player) && end.Exhausted? && !description.Running?
    ensures Resolve(entries, end, description, ensemble, player).TimedOut? <==>
      exists n | 0 <= n < |entries| :: entries[n].late && !Listed(entries[..n], ensemble, player)
  {
    var n := Stop(entries, ensemble, player);
    if n < |entries| {
      assert entries[n] in entries;
    }
    if m :| 0 <= m < |entries| && entries[m].late && !Listed(entries[..m], ensemble, player) {
      if n < m {
        assert entries[n] == entries[..m][n] && entries[..m][n] in entries[..m];
      }
    }
    if n < |entries| && entries[n].late {
      assert !Listed(entries[..n], ensemble, player);
    }
  }

  /** A player that is found is the player asked for, unless a hyphen or a rename misleads. */
  lemma FoundIsRight(entries: seq<Entry>, description: Description, running: map<string, Session>,
                     ensemble: string, player: string)
    requires World(running) && Truthful(entries, running)
    requires Describes(description, running, SessionWorkflowId(ensemble, player))
    requires HyphenFree(ensemble) && forall id <- running :: HyphenFree(running[id].ensemble)
    requires Resolve(entries, Exhausted, description, ensemble, player).Found?
    ensures var id := Resolve(entries, Exhausted, description, ensemble, player).id;
      && id in running && running[id].ensemble == ensemble
      && (running[id].player == player || running[id].initial == player)
      && (running[id].player == running[id].initial ==> running[id].player == player)
  {
    var n := Stop(entries, ensemble, player);
    if n < |entries| {
      assert entries[n] in entries;
    } else {
      var id := SessionWorkflowId(ensemble, player);
      WorkflowIdIsInjective(ensemble, player, running[id].ensemble, running[id].initial);
    }
  }

  /**
   * Ensemble names may hold hyphens (ENSEMBLE_NAME_REGEX in src/utils/validation.ts:14), and
   * then the point read can hand out a session of another ensemble.
   */
  lemma HyphensMislead()
    ensures var running := map[SessionWorkflowId("a-b", "c") := Session("a-b", "c", "c")];
      && World(running)
      && Describes(Running, running, SessionWorkflowId("a", "b-c"))
      && Resolve([], Exhausted, Running, "a", "b-c") == Found(SessionWorkflowId("a-b", "c"))
  {
    assert Confusable("a-b", "c", "a", "b-c") by {
      assert "a-b" == "a" + "-" + "b" && "b-c" == "b" + "-" + "c";
    }
    SameWorkflowId("a-b", "c", "a", "b-c");
  }

  /** The entry answers, and with the ensemble and the name asked for. */
  predicate Answers(e: Entry, ensemble: string, player: string) {
    match e.answer
    case None => false
    case Some(session) => session.ensemble == ensemble && session.player == player
  }

  /** The scan gets to the `n`-th entry: the ones before it came in time and are somebody else. */
  predicate Reaches(entries: seq<Entry>, n: nat, ensemble: string, player: string) {
    n <= |entries| && forall k | 0 <= k < n :: !entries[k].late && !Answers(entries[k], ensemble, player)
  }

  /**
   * Every result, and exactly when: the first entry that answers in time is handed out, and a late
   * one before it is a timeout; a list that breaks off is a failure and never absence; and a list
   * read to its end without an answer is left to the derived id.
   */
  lemma ResolveIsExact(entries: seq<Entry>, end: ListEnd, description: Description, ensemble: string, player: string,
      r: Result)
    ensures r == Resolve(entries, end, description, ensemble, player) <==>
      match r
      case TimedOut(n) => n < |entries| && Reaches(entries, n, ensemble, player) && entries[n].late
      case ListFailed => Reaches(entries, |entries|, ensemble, player) && end.Broke?
      case NotFound => Reaches(entries, |entries|, ensemble, player) && end.Exhausted? && !description.Running?
      case Found(id) =>
        || (exists n: nat | n < |entries| :: Reaches(entries, n, ensemble, player) && !entries[n].late
              && Answers(entries[n], ensemble, player) && entries[n].id == id)
        || (Reaches(entries, |entries|, ensemble, player) && end.Exhausted? && description.Running?
            && id == "agent-session-" + ensemble + "-" + player)
  {
    var n := Stop(entries, ensemble, player);
    assert Reaches(entries, n, ensemble, player);
    forall m: nat | Reaches(entries, m, ensemble, player) ensures m <= n {
    }
  }
}
