/** How often the incremental chat fetch delivers each message, over whole runs in which every result's counts become
  the next call's marks and the four logs only grow.
 */
module ChatDelivery {
  import opened Options
  import opened ChatFetch

  // ----- one log

  /** What one fetch sees of one log: nothing (the fetch failed as a whole), a reset mark, or the first `n` messages. */
  datatype Look = Skipped | Reset | Saw(n: nat)

  function MarkAfter(looks: seq<Look>): nat {
    if looks == [] then 0
    else match looks[|looks| - 1]
      case Skipped => MarkAfter(looks[..|looks| - 1])
      case Reset => 0
      case Saw(n) => n
  }

  /** How many fetches emit message `i`. */
  function Emissions(looks: seq<Look>, i: nat): nat {
    if looks == [] then 0
    else
      var before, last := looks[..|looks| - 1], looks[|looks| - 1];
      Emissions(before, i) + if last.Saw? && MarkAfter(before) <= i < last.n then 1 else 0
  }

  ghost predicate Growing(looks: seq<Look>) {
    forall p, q | 0 <= p < q < |looks| && looks[p].Saw? && looks[q].Saw? :: looks[p].n <= looks[q].n
  }

  /** The run cut at its resets. */
  function Segments(looks: seq<Look>): (segments: seq<seq<Look>>)
    ensures segments != []
  {
    if looks == [] then [[]]
    else
      var before, last := Segments(looks[..|looks| - 1]), looks[|looks| - 1];
      if last.Reset? then before + [[]]
      else before[..|before| - 1] + [before[|before| - 1] + [last]]
  }

  ghost predicate Sees(segment: seq<Look>, i: nat) {
    exists p | 0 <= p < |segment| :: segment[p].Saw? && segment[p].n > i
  }

  ghost function Seeing(segments: seq<seq<Look>>, i: nat): nat {
    if segments == [] then 0
    else Seeing(segments[..|segments| - 1], i) + if Sees(segments[|segments| - 1], i) then 1 else 0
  }

  lemma SeesSnoc(segment: seq<Look>, last: Look, i: nat)
    ensures Sees(segment + [last], i) <==> Sees(segment, i) || (last.Saw? && last.n > i)
  {
    if Sees(segment, i) {
      var p :| 0 <= p < |segment| && segment[p].Saw? && segment[p].n > i;
      assert (segment + [last])[p] == segment[p];
    }
    if last.Saw? && last.n > i {
      assert (segment + [last])[|segment|] == last;
    }
  }

  /** The mark has passed message `i` exactly when the segment under way has seen it. */
  lemma {:induction false} MarkTellsSeen(looks: seq<Look>, i: nat)
    requires Growing(looks)
    ensures var segments := Segments(looks); MarkAfter(looks) > i <==> Sees(segments[|segments| - 1], i)
  {
    if looks != [] {
      var before, last := looks[..|looks| - 1], looks[|looks| - 1];
      MarkTellsSeen(before, i);
      var segments := Segments(before);
      SeesSnoc(segments[|segments| - 1], last, i);
      if last.Saw? && Sees(segments[|segments| - 1], i) {
        SeenBefore(before, i);
      }
    }
  }

  lemma {:induction false} SeenBefore(looks: seq<Look>, i: nat)
    requires var segments := Segments(looks); Sees(segments[|segments| - 1], i)
    ensures exists p | 0 <= p < |looks| :: looks[p].Saw? && looks[p].n > i
  {
    var before, last := looks[..|looks| - 1], looks[|looks| - 1];
    if !last.Reset? {
      var segments := Segments(before);
      SeesSnoc(segments[|segments| - 1], last, i);
      if !(last.Saw? && last.n > i) {
        SeenBefore(before, i);
        var p :| 0 <= p < |before| && before[p].Saw? && before[p].n > i;
        assert looks[p].Saw? && looks[p].n > i;
      }
    }
  }

  /** Exact delivery: message `i` is emitted once per reset-free segment in which some fetch saw it. */
  lemma {:induction false} EmittedOncePerSegment(looks: seq<Look>, i: nat)
    requires Growing(looks)
    ensures Emissions(looks, i) == Seeing(Segments(looks), i)
  {
    if looks != [] {
      var before, last := looks[..|looks| - 1], looks[|looks| - 1];
      EmittedOncePerSegment(before, i);
      MarkTellsSeen(before, i);
      var segments := Segments(before);
      var n := |segments| - 1;
      SeesSnoc(segments[n], last, i);
      var all := Segments(looks);
      if last.Reset? {
        assert all[..|all| - 1] == segments;
      } else {
        assert all[..n] == segments[..n];
      }
    }
  }

  /** Hence at least once as soon as any fetch saw it. */
  lemma {:induction false} DeliveredAtLeastOnce(looks: seq<Look>, i: nat)
    ensures (exists p | 0 <= p < |looks| :: looks[p].Saw? && looks[p].n > i) <==> Seeing(Segments(looks), i) >= 1
  {
    if looks != [] {
      var before, last := looks[..|looks| - 1], looks[|looks| - 1];
      DeliveredAtLeastOnce(before, i);
      var segments, all := Segments(before), Segments(looks);
      var n := |segments| - 1;
      SeesSnoc(segments[n], last, i);
      if last.Reset? {
        assert all[..|all| - 1] == segments;
      } else {
        assert all[..n] == segments[..n];
      }
      if last.Saw? && last.n > i {
        assert looks[|looks| - 1].Saw? && looks[|looks| - 1].n > i;
      } else {
        assert forall p | 0 <= p < |before| :: looks[p] == before[p];
      }
    }
  }

  lemma {:induction false} NeverReset(looks: seq<Look>)
    requires forall p | 0 <= p < |looks| :: !looks[p].Reset?
    ensures Segments(looks) == [looks]
  {
    if looks != [] {
      var before, last := looks[..|looks| - 1], looks[|looks| - 1];
      NeverReset(before);
      assert looks == before + [last];
    }
  }

  lemma SeeingOne(segment: seq<Look>, i: nat)
    ensures Seeing([segment], i) == if Sees(segment, i) then 1 else 0
  {
    hide Sees;
    assert [segment][..0] == [];
    assert Seeing([segment][..0], i) == 0;
  }

  /** And exactly once when no mark is ever reset. */
  lemma DeliveredExactlyOnce(looks: seq<Look>, i: nat)
    requires forall p | 0 <= p < |looks| :: !looks[p].Reset?
    ensures Segments(looks) == [looks]
    ensures Seeing(Segments(looks), i) == if Sees(looks, i) then 1 else 0
  {
    hide *;
    NeverReset(looks);
    SeeingOne(looks, i);
  }

  // ----- one log's share of what is delivered

  function One(b: bool): nat {
    if b then 1 else 0
  }

  /** How many of the messages `lo..hi` become `e`. */
  function Hits<T>(project: T -> Option<Entry>, log: seq<T>, lo: nat, hi: nat, e: Entry): nat
    requires hi <= |log|
    decreases hi
  {
    if hi <= lo then 0
    else Hits(project, log, lo, hi - 1, e) + One(project(log[hi - 1]) == Some(e))
  }

  lemma HitsSnoc<T>(project: T -> Option<Entry>, log: seq<T>, lo: nat, hi: nat, e: Entry)
    requires lo <= hi <= |log|
    ensures Projected(project, []) == []
    ensures Hits(project, log, lo, hi, e)
         == if lo == hi then 0 else Hits(project, log, lo, hi - 1, e) + One(project(log[hi - 1]) == Some(e))
  {
  }

  lemma {:induction false} ProjectedHits<T>(project: T -> Option<Entry>, log: seq<T>, lo: nat, hi: nat, e: Entry)
    requires lo <= hi <= |log|
    ensures multiset(Projected(project, log[lo..hi]))[e] == Hits(project, log, lo, hi, e)
  {
    hide *;
    HitsSnoc(project, log, lo, hi, e);
    if lo == hi {
      assert log[lo..hi] == [];
    } else {
      ProjectedHits(project, log, lo, hi - 1, e);
      assert log[lo..hi] == log[lo..hi - 1] + [log[hi - 1]];
      ProjectedSnoc(project, log[lo..hi - 1], log[hi - 1], e);
    }
  }

  lemma ProjectedSnoc<T>(project: T -> Option<Entry>, log: seq<T>, m: T, e: Entry)
    ensures multiset(Projected(project, log + [m]))[e] ==
      multiset(Projected(project, log))[e] + One(project(m) == Some(e))
  {
    assert (log + [m])[..|log|] == log;
  }

  /** Copies of `e` that the first `n` messages of a log owe, each counted once per segment that sees it. */
  ghost function Owed<T>(project: T -> Option<Entry>, log: seq<T>, n: nat, looks: seq<Look>, e: Entry): nat
    requires n <= |log|
  {
    if n == 0 then 0
    else
      Owed(project, log, n - 1, looks, e)
      + if project(log[n - 1]) == Some(e) then Seeing(Segments(looks), n - 1) else 0
  }

  lemma GrowingPrefix(looks: seq<Look>, last: Look)
    requires Growing(looks + [last])
    ensures Growing(looks)
  {
    forall p, q | 0 <= p < q < |looks| && looks[p].Saw? && looks[q].Saw? ensures looks[p].n <= looks[q].n {
      assert (looks + [last])[p] == looks[p] && (looks + [last])[q] == looks[q];
    }
  }

  lemma SeeingGrows(looks: seq<Look>, last: Look, i: nat)
    requires Growing(looks + [last])
    ensures Seeing(Segments(looks + [last]), i)
         == Seeing(Segments(looks), i) + One(last.Saw? && MarkAfter(looks) <= i < last.n)
  {
    hide Segments, Seeing;
    GrowingPrefix(looks, last);
    EmittedOncePerSegment(looks + [last], i);
    EmittedOncePerSegment(looks, i);
    assert (looks + [last])[..|looks|] == looks;
  }

  /** One more look adds to what is owed exactly what it emits. */
  lemma {:induction false} OwedGrows<T>(project: T -> Option<Entry>, log: seq<T>, n: nat, looks: seq<Look>, last: Look,
      e: Entry)
    requires n <= |log| && Growing(looks + [last]) && (last.Saw? ==> last.n <= |log|)
    ensures Owed(project, log, n, looks + [last], e)
         == Owed(project, log, n, looks, e)
            + if last.Saw? then Hits(project, log, MarkAfter(looks), if n < last.n then n else last.n, e) else 0
  {
    hide Segments, Seeing, MarkAfter, Growing;
    if n > 0 {
      OwedGrows(project, log, n - 1, looks, last, e);
      SeeingGrows(looks, last, n - 1);
    }
  }

  // ----- whole runs of the activity

  datatype Logs = Logs(maestroRecv: seq<Message>, maestroSent: seq<SentMessage>, condRecv: seq<Message>,
      condSent: seq<SentMessage>)

  /** One call: what the scan found, the logs at that moment, and which of the four queries were answered. */
  datatype Round = Round(scan: Scan, logs: Logs, mr: bool, ms: bool, cr: bool, cs: bool)

  function Reply<T>(log: seq<T>, answered: bool): Settled<T> {
    if answered then Fulfilled(log) else Rejected
  }

  function Fetch(known: Option<HighWater>, r: Round): FetchResult {
    FetchOutcome(known, r.scan, Reply(r.logs.maestroRecv, r.mr), Reply(r.logs.maestroSent, r.ms),
                 Reply(r.logs.condRecv, r.cr), Reply(r.logs.condSent, r.cs))
  }

  /** The counts that the caller passes on; there are none before the first call. */
  function Known(rounds: seq<Round>): Option<HighWater> {
    if rounds == [] then None
    else Some(Fetch(Known(rounds[..|rounds| - 1]), rounds[|rounds| - 1]).currentCounts)
  }

  /** Everything a run delivers. */
  function Delivered(rounds: seq<Round>): multiset<Entry> {
    if rounds == [] then multiset{}
    else
      Delivered(rounds[..|rounds| - 1])
      + multiset(Fetch(Known(rounds[..|rounds| - 1]), rounds[|rounds| - 1]).newMessages)
  }

  function LookAt(scan: Scan, answered: bool, n: nat): Look {
    if scan.ScanThrew? then Skipped else if answered then Saw(n) else Reset
  }

  function LookMR(r: Round): Look { LookAt(r.scan, r.mr, |r.logs.maestroRecv|) }

  function LookMS(r: Round): Look { LookAt(r.scan, r.ms, |r.logs.maestroSent|) }

  /** Without a conductor both of its logs count as empty, which resets their marks. */
  function LookCR(r: Round): Look { LookAt(r.scan, r.cr && r.scan.Conductor?, |r.logs.condRecv|) }

  function LookCS(r: Round): Look { LookAt(r.scan, r.cs && r.scan.Conductor?, |r.logs.condSent|) }

  function Looks(look: Round -> Look, rounds: seq<Round>): seq<Look> {
    if rounds == [] then [] else Looks(look, rounds[..|rounds| - 1]) + [look(rounds[|rounds| - 1])]
  }

  lemma {:induction false} MarksAreKnown(rounds: seq<Round>)
    ensures Known(rounds).GetOr(ZERO)
         == HighWater(MarkAfter(Looks(LookMR, rounds)), MarkAfter(Looks(LookMS, rounds)),
                      MarkAfter(Looks(LookCR, rounds)), MarkAfter(Looks(LookCS, rounds)))
  {
    if rounds != [] {
      hide SortByTime, Collected;
      var before, r := rounds[..|rounds| - 1], rounds[|rounds| - 1];
      MarksAreKnown(before);
      MarkSnoc(Looks(LookMR, before), LookMR(r));
      MarkSnoc(Looks(LookMS, before), LookMS(r));
      MarkSnoc(Looks(LookCR, before), LookCR(r));
      MarkSnoc(Looks(LookCS, before), LookCS(r));
    }
  }

  lemma MarkSnoc(looks: seq<Look>, last: Look)
    ensures MarkAfter(looks + [last]) == match last case Skipped => MarkAfter(looks) case Reset => 0 case Saw(n) => n
  {
    assert (looks + [last])[..|looks|] == looks;
  }

  ghost predicate Earlier(a: Logs, b: Logs) {
    && a.maestroRecv <= b.maestroRecv && a.maestroSent <= b.maestroSent
    && a.condRecv <= b.condRecv && a.condSent <= b.condSent
  }

  /** The logs only grow, up to `logs`, and whenever the scan finds a conductor it is the same one. */
  ghost predicate AppendOnly(rounds: seq<Round>, logs: Logs, conductorId: string) {
    && (forall i | 0 <= i < |rounds| :: Earlier(rounds[i].logs, logs))
    && (forall i, j | 0 <= i < j < |rounds| :: Earlier(rounds[i].logs, rounds[j].logs))
    && (forall i | 0 <= i < |rounds| :: rounds[i].scan.Conductor? ==> rounds[i].scan.id == conductorId)
  }

  lemma {:induction false} LooksAt(look: Round -> Look, rounds: seq<Round>)
    ensures |Looks(look, rounds)| == |rounds|
    ensures forall i | 0 <= i < |rounds| :: Looks(look, rounds)[i] == look(rounds[i])
  {
    if rounds != [] { LooksAt(look, rounds[..|rounds| - 1]); }
  }

  lemma LooksGrow(rounds: seq<Round>, logs: Logs, conductorId: string)
    requires AppendOnly(rounds, logs, conductorId)
    ensures Growing(Looks(LookMR, rounds)) && Growing(Looks(LookMS, rounds))
    ensures Growing(Looks(LookCR, rounds)) && Growing(Looks(LookCS, rounds))
  {
    hide Looks;
    LooksAt(LookMR, rounds);
    LooksAt(LookMS, rounds);
    LooksAt(LookCR, rounds);
    LooksAt(LookCS, rounds);
    forall i, j | 0 <= i < j < |rounds| ensures Earlier(rounds[i].logs, rounds[j].logs) {}
  }

  ghost function Share<T>(project: T -> Option<Entry>, log: seq<T>, looks: seq<Look>, e: Entry): nat {
    Owed(project, log, |log|, looks, e)
  }

  /** What one fetch delivers of one log. */
  lemma SliceHits<T>(project: T -> Option<Entry>, shown: seq<T>, log: seq<T>, mark: nat, look: Look, e: Entry)
    requires look.Saw? ==> shown <= log && look.n == |shown|
    requires !look.Saw? ==> shown == []
    ensures multiset(Projected(project, From(shown, mark)))[e] ==
      if look.Saw? then Hits(project, log, mark, look.n, e) else 0
  {
    if look.Saw? && mark <= |shown| {
      assert shown[mark..] == log[mark..|shown|];
      ProjectedHits(project, log, mark, |shown|, e);
    }
  }

  lemma CollectedHits(hw: HighWater, conductorId: string, mr: seq<Message>, ms: seq<SentMessage>, cr: seq<Message>,
      cs: seq<SentMessage>, e: Entry)
    ensures multiset(Collected(hw, conductorId, mr, ms, cr, cs))[e]
         == multiset(Projected(MaestroReceived, From(mr, hw.maestroRecv)))[e]
            + multiset(Projected(MaestroSent, From(ms, hw.maestroSent)))[e]
            + multiset(Projected(ForReceived(conductorId), From(cr, hw.conductorRecv)))[e]
            + multiset(Projected(ForSent(conductorId), From(cs, hw.conductorSent)))[e]
  {
    hide Projected, From;
  }

  /** How often one look at a log delivers `e`. */
  ghost function Gain<T>(project: T -> Option<Entry>, log: seq<T>, looks: seq<Look>, look: Look, e: Entry): nat
    requires look.Saw? ==> look.n <= |log|
  {
    if look.Saw? then Hits(project, log, MarkAfter(looks), look.n, e) else 0
  }

  lemma ShareGrows<T>(project: T -> Option<Entry>, log: seq<T>, looks: seq<Look>, look: Look, e: Entry)
    requires Growing(looks + [look]) && (look.Saw? ==> look.n <= |log|)
    ensures Share(project, log, looks + [look], e) == Share(project, log, looks, e) + Gain(project, log, looks, look, e)
  {
    OwedGrows(project, log, |log|, looks, look, e);
  }

  /** One call of a run. */
  lemma RoundDelivers(before: seq<Round>, r: Round, logs: Logs, conductorId: string, e: Entry)
    requires Earlier(r.logs, logs) && (r.scan.Conductor? ==> r.scan.id == conductorId)
    ensures multiset(Fetch(Known(before), r).newMessages)[e]
         == Gain(MaestroReceived, logs.maestroRecv, Looks(LookMR, before), LookMR(r), e)
            + Gain(MaestroSent, logs.maestroSent, Looks(LookMS, before), LookMS(r), e)
            + Gain(ForReceived(conductorId), logs.condRecv, Looks(LookCR, before), LookCR(r), e)
            + Gain(ForSent(conductorId), logs.condSent, Looks(LookCS, before), LookCS(r), e)
  {
    hide Projected, From, SortByTime, Looks, Hits, Collected, MarkAfter, ForReceived, ForSent;
    if !r.scan.ScanThrew? {
      MarksAreKnown(before);
      var hw := Known(before).GetOr(ZERO);
      var id := if r.scan.Conductor? then r.scan.id else "";
      var mr, ms := ValueOf(Reply(r.logs.maestroRecv, r.mr)), ValueOf(Reply(r.logs.maestroSent, r.ms));
      var cr := if r.scan.Conductor? then ValueOf(Reply(r.logs.condRecv, r.cr)) else [];
      var cs := if r.scan.Conductor? then ValueOf(Reply(r.logs.condSent, r.cs)) else [];
      assert Fetch(Known(before), r).newMessages == SortByTime(Collected(hw, id, mr, ms, cr, cs));
      CollectedHits(hw, id, mr, ms, cr, cs, e);
      SliceHits(MaestroReceived, mr, logs.maestroRecv, hw.maestroRecv, LookMR(r), e);
      SliceHits(MaestroSent, ms, logs.maestroSent, hw.maestroSent, LookMS(r), e);
      SliceHits(ForReceived(id), cr, logs.condRecv, hw.conductorRecv, LookCR(r), e);
      SliceHits(ForSent(id), cs, logs.condSent, hw.conductorSent, LookCS(r), e);
    }
  }

  /** The delivery guarantee over any run, failures included: the number of copies of an entry that reach the caller is
    the sum, over the messages of the four logs that project to it, of the reset-free segments in which some answered
    query saw that message.
   */
  lemma {:induction false} DeliveredExactly(rounds: seq<Round>, logs: Logs, conductorId: string, e: Entry)
    requires AppendOnly(rounds, logs, conductorId)
    ensures Delivered(rounds)[e]
         == Share(MaestroReceived, logs.maestroRecv, Looks(LookMR, rounds), e)
            + Share(MaestroSent, logs.maestroSent, Looks(LookMS, rounds), e)
            + Share(ForReceived(conductorId), logs.condRecv, Looks(LookCR, rounds), e)
            + Share(ForSent(conductorId), logs.condSent, Looks(LookCS, rounds), e)
  {
    if rounds == [] {
      NothingOwed(MaestroReceived, logs.maestroRecv, |logs.maestroRecv|, e);
      NothingOwed(MaestroSent, logs.maestroSent, |logs.maestroSent|, e);
      NothingOwed(ForReceived(conductorId), logs.condRecv, |logs.condRecv|, e);
      NothingOwed(ForSent(conductorId), logs.condSent, |logs.condSent|, e);
    } else {
      hide Fetch, Growing, Share, Gain, ForReceived, ForSent;
      var before, r := rounds[..|rounds| - 1], rounds[|rounds| - 1];
      DeliveredExactly(before, logs, conductorId, e);
      RoundDelivers(before, r, logs, conductorId, e);
      LooksGrow(rounds, logs, conductorId);
      ShareGrows(MaestroReceived, logs.maestroRecv, Looks(LookMR, before), LookMR(r), e);
      ShareGrows(MaestroSent, logs.maestroSent, Looks(LookMS, before), LookMS(r), e);
      ShareGrows(ForReceived(conductorId), logs.condRecv, Looks(LookCR, before), LookCR(r), e);
      ShareGrows(ForSent(conductorId), logs.condSent, Looks(LookCS, before), LookCS(r), e);
    }
  }

  lemma {:induction false} NothingOwed<T>(project: T -> Option<Entry>, log: seq<T>, n: nat, e: Entry)
    requires n <= |log|
    ensures Owed(project, log, n, [], e) == 0
  {
    if n > 0 {
      NothingOwed(project, log, n - 1, e);
      var none: seq<Look> := [];
      EmittedOncePerSegment(none, n - 1);
      assert Emissions(none, n - 1) == 0;
    }
  }

  // ----- runs without a failed query

  /** The call failed as a whole, or found the conductor and had all four queries answered. */
  predicate AllOrNothing(r: Round, conductorId: string) {
    r.scan.ScanThrew? || (r.scan == Conductor(conductorId) && r.mr && r.ms && r.cr && r.cs)
  }

  /** A look list without a reset that ends with a look at the whole log. */
  ghost predicate SeesAll(looks: seq<Look>, n: nat) {
    looks != [] && looks[|looks| - 1] == Saw(n) && forall p | 0 <= p < |looks| :: !looks[p].Reset?
  }

  lemma {:induction false} OwedOnce<T>(project: T -> Option<Entry>, log: seq<T>, n: nat, looks: seq<Look>, e: Entry)
    requires n <= |log| && SeesAll(looks, |log|)
    ensures Owed(project, log, n, looks, e) == Hits(project, log, 0, n, e)
  {
    hide Segments, Seeing;
    if n > 0 {
      OwedOnce(project, log, n - 1, looks, e);
      DeliveredExactlyOnce(looks, n - 1);
      assert Sees(looks, n - 1);
    }
  }

  lemma ShareIsProjection<T>(project: T -> Option<Entry>, log: seq<T>, looks: seq<Look>, e: Entry)
    requires SeesAll(looks, |log|)
    ensures Share(project, log, looks, e) == multiset(Projected(project, log))[e]
  {
    hide Hits, SeesAll;
    OwedOnce(project, log, |log|, looks, e);
    ProjectedHits(project, log, 0, |log|, e);
    assert log[0..|log|] == log;
  }

  lemma LooksSeeAll(look: Round -> Look, rounds: seq<Round>, n: nat)
    requires rounds != [] && look(rounds[|rounds| - 1]) == Saw(n)
    requires forall i | 0 <= i < |rounds| :: !look(rounds[i]).Reset?
    ensures SeesAll(Looks(look, rounds), n)
  {
    hide Looks;
    LooksAt(look, rounds);
  }

  /**
   * Over a run in which no single query fails, and that ends with a call that succeeds, exactly the projections of the
   * four logs last seen are delivered, each once; calls that fail as a whole cost nothing.
   */
  lemma {:induction false} UndisturbedRun(rounds: seq<Round>, conductorId: string)
    requires rounds != [] && rounds[|rounds| - 1].scan.Conductor?
    requires forall i | 0 <= i < |rounds| :: AllOrNothing(rounds[i], conductorId)
    requires AppendOnly(rounds, rounds[|rounds| - 1].logs, conductorId)
    ensures var logs := rounds[|rounds| - 1].logs;
      Delivered(rounds) == multiset(Projected(MaestroReceived, logs.maestroRecv))
        + multiset(Projected(MaestroSent, logs.maestroSent))
        + multiset(Projected(ForReceived(conductorId), logs.condRecv))
        + multiset(Projected(ForSent(conductorId), logs.condSent))
  {
    hide Projected, Delivered, Looks, Share, AppendOnly;
    var logs := rounds[|rounds| - 1].logs;
    LooksSeeAll(LookMR, rounds, |logs.maestroRecv|);
    LooksSeeAll(LookMS, rounds, |logs.maestroSent|);
    LooksSeeAll(LookCR, rounds, |logs.condRecv|);
    LooksSeeAll(LookCS, rounds, |logs.condSent|);
    hide SeesAll;
    forall e: Entry
      ensures Delivered(rounds)[e] ==
        multiset(Projected(MaestroReceived, logs.maestroRecv))[e]
          + multiset(Projected(MaestroSent, logs.maestroSent))[e]
        + multiset(Projected(ForReceived(conductorId), logs.condRecv))[e]
        + multiset(Projected(ForSent(conductorId), logs.condSent))[e]
    {
      DeliveredExactly(rounds, logs, conductorId, e);
      ShareIsProjection(MaestroReceived, logs.maestroRecv, Looks(LookMR, rounds), e);
      ShareIsProjection(MaestroSent, logs.maestroSent, Looks(LookMS, rounds), e);
      ShareIsProjection(ForReceived(conductorId), logs.condRecv, Looks(LookCR, rounds), e);
      ShareIsProjection(ForSent(conductorId), logs.condSent, Looks(LookCS, rounds), e);
    }
  }
}
