/** The incremental chat fetch of `src/activities/maestro.ts`: four append-only logs read through high-water marks,
  projected, filtered, merged and sorted.

  Timestamps are ISO strings compared with `localeCompare`; here they are the instants those strings order by.
 */
module ChatFetch {
  import opened Options

  datatype Message = Message(id: string, from: string, text: string, timestamp: int, isMaestro: bool,
      broadcastId: Option<string>)

  datatype SentMessage = SentMessage(id: string, to: string, text: string, timestamp: int, broadcastId: Option<string>)

  datatype Role = MaestroIn | MaestroOut | ConductorIn | ConductorOut

  datatype Entry = Entry(id: string, from: string, to: string, text: string, timestamp: int, role: Role,
      broadcastId: Option<string>)

  datatype HighWater = HighWater(maestroRecv: nat, maestroSent: nat, conductorRecv: nat, conductorSent: nat)

  const ZERO := HighWater(0, 0, 0, 0)

  /** One element of what `Promise.allSettled` returns. */
  datatype Settled<+T> = Fulfilled(value: seq<T>) | Rejected

  /** What the session scan found: it may throw, find no conductor, or find one. */
  datatype Scan = ScanThrew | NoConductor | Conductor(id: string)

  datatype FetchResult = FetchResult(success: bool, newMessages: seq<Entry>, currentCounts: HighWater,
      hasConductor: bool)

  const TRUNC: nat := 500

  function Truncate(t: string): (r: string)
    ensures |t| <= TRUNC ==> r == t
    ensures |t| > TRUNC ==> |r| == TRUNC + 2 && r[..TRUNC - 1] == t[..TRUNC - 1]
  {
    if |t| > TRUNC then t[..TRUNC - 1] + "..." else t
  }

  function ValueOf<T>(s: Settled<T>): seq<T> {
    if s.Fulfilled? then s.value else []
  }

  /** `log.slice(mark)`. */
  function From<T>(log: seq<T>, mark: nat): seq<T> {
    if mark <= |log| then log[mark..] else []
  }

  // ----- projection: what one message becomes in the chat, or nothing

  function MaestroReceived(m: Message): Option<Entry> {
    Some(Entry(m.id, m.from, "maestro", m.text, m.timestamp, MaestroIn, m.broadcastId))
  }

  function MaestroSent(m: SentMessage): Option<Entry> {
    Some(Entry(m.id, "maestro", m.to, m.text, m.timestamp, MaestroOut, m.broadcastId))
  }

  function ConductorReceived(conductorId: string, m: Message): Option<Entry> {
    if m.from == "maestro" || m.isMaestro then None
    else if m.from == conductorId then
      Some(Entry("cond-" + m.id, m.from, "maestro", Truncate(m.text), m.timestamp, MaestroIn, m.broadcastId))
    else
      Some(Entry("cond-" + m.id, m.from, conductorId, Truncate(m.text), m.timestamp, ConductorIn, m.broadcastId))
  }

  function ConductorSent(conductorId: string, m: SentMessage): Option<Entry> {
    if m.to == "maestro" then None
    else Some(Entry("cond-" + m.id, conductorId, m.to, Truncate(m.text), m.timestamp, ConductorOut, m.broadcastId))
  }

  function ForReceived(conductorId: string): Message -> Option<Entry> {
    m => ConductorReceived(conductorId, m)
  }

  function ForSent(conductorId: string): SentMessage -> Option<Entry> {
    m => ConductorSent(conductorId, m)
  }

  function Projected<T>(project: T -> Option<Entry>, log: seq<T>): seq<Entry> {
    if log == [] then []
    else
      var last := project(log[|log| - 1]);
      Projected(project, log[..|log| - 1]) + (if last.Some? then [last.value] else [])
  }

  /** Everything new, log after log. */
  function Collected(hw: HighWater, conductorId: string, mr: seq<Message>, ms: seq<SentMessage>, cr: seq<Message>,
      cs: seq<SentMessage>): seq<Entry>
  {
    Projected(MaestroReceived, From(mr, hw.maestroRecv))
    + Projected(MaestroSent, From(ms, hw.maestroSent))
    + Projected(ForReceived(conductorId), From(cr, hw.conductorRecv))
    + Projected(ForSent(conductorId), From(cs, hw.conductorSent))
  }

  // ----- the sort

  ghost predicate Sorted(es: seq<Entry>) {
    forall i, j | 0 <= i < j < |es| :: es[i].timestamp <= es[j].timestamp
  }

  /** The entries of one instant, in order. */
  function At(es: seq<Entry>, t: int): seq<Entry> {
    if es == [] then []
    else At(es[..|es| - 1], t) + (if es[|es| - 1].timestamp == t then [es[|es| - 1]] else [])
  }

  /** Puts `e` after every entry that is not later. */
  function Insert(es: seq<Entry>, e: Entry): (r: seq<Entry>)
    ensures multiset(r) == multiset(es) + multiset{e}
    ensures |r| == |es| + 1
  {
    if es == [] || es[|es| - 1].timestamp <= e.timestamp then es + [e]
    else
      var before, last := es[..|es| - 1], es[|es| - 1];
      assert es == before + [last];
      Insert(before, e) + [last]
  }

  /** `newMessages.sort(byTimestamp)`; the sort of ECMAScript is stable. */
  function SortByTime(es: seq<Entry>): (r: seq<Entry>)
    ensures multiset(r) == multiset(es)
  {
    if es == [] then []
    else
      assert es == es[..|es| - 1] + [es[|es| - 1]];
      Insert(SortByTime(es[..|es| - 1]), es[|es| - 1])
  }

  lemma {:induction false} InsertSorts(es: seq<Entry>, e: Entry)
    requires Sorted(es)
    ensures Sorted(Insert(es, e))
  {
    if es != [] && es[|es| - 1].timestamp > e.timestamp {
      var before, last := es[..|es| - 1], es[|es| - 1];
      InsertSorts(before, e);
      var r := Insert(before, e);
      forall i | 0 <= i < |r| ensures r[i].timestamp <= last.timestamp {
        assert r[i] in multiset(r);
        if r[i] != e {
          assert r[i] in before;
        }
      }
    }
  }

  lemma AtSnoc(es: seq<Entry>, e: Entry, t: int)
    ensures At(es + [e], t) == At(es, t) + if e.timestamp == t then [e] else []
  {
    assert (es + [e])[..|es|] == es;
  }

  lemma {:induction false} AtNone(es: seq<Entry>, t: int)
    requires forall i | 0 <= i < |es| :: es[i].timestamp != t
    ensures At(es, t) == []
  {
    if es != [] { AtNone(es[..|es| - 1], t); }
  }

  lemma {:induction false} InsertStable(es: seq<Entry>, e: Entry, t: int)
    requires Sorted(es)
    ensures At(Insert(es, e), t) == At(es, t) + if e.timestamp == t then [e] else []
  {
    hide At;
    if es == [] || es[|es| - 1].timestamp <= e.timestamp {
      AtSnoc(es, e, t);
    } else {
      var before, last := es[..|es| - 1], es[|es| - 1];
      assert es == before + [last];
      InsertStable(before, e, t);
      AtSnoc(before, last, t);
      AtSnoc(Insert(before, e), last, t);
    }
  }

  /** The result is sorted, and each instant's entries keep the order in which they were collected. */
  lemma {:induction false} SortIsStable(es: seq<Entry>, t: int)
    ensures Sorted(SortByTime(es)) && At(SortByTime(es), t) == At(es, t)
  {
    if es != [] {
      var before, last := es[..|es| - 1], es[|es| - 1];
      SortIsStable(before, t);
      InsertSorts(SortByTime(before), last);
      InsertStable(SortByTime(before), last, t);
    }
  }

  /** No other sequence is: these properties pin the result down. */
  lemma {:induction false} SortedStableIsUnique(a: seq<Entry>, b: seq<Entry>)
    requires Sorted(a) && Sorted(b) && forall t :: At(a, t) == At(b, t)
    ensures a == b
  {
    hide At;
    AtNone([], if a != [] then a[|a| - 1].timestamp else if b != [] then b[|b| - 1].timestamp else 0);
    if a != [] { AtLast(a); }
    if b != [] { AtLast(b); }
    if a != [] && b != [] {
      var x, y := a[|a| - 1], b[|b| - 1];
      if x.timestamp > y.timestamp { AtNone(b, x.timestamp); }
      if x.timestamp < y.timestamp { AtNone(a, y.timestamp); }
      assert At(a, x.timestamp) == At(b, x.timestamp);
      var a', b' := a[..|a| - 1], b[..|b| - 1];
      forall t ensures At(a', t) == At(b', t) {
        assert At(a, t) == At(b, t);
        AtBefore(a, t);
        AtBefore(b, t);
      }
      SortedStableIsUnique(a', b');
      assert a == a' + [x] && b == b' + [y];
    }
  }

  lemma AtBefore(a: seq<Entry>, t: int)
    requires a != []
    ensures At(a[..|a| - 1], t) == if a[|a| - 1].timestamp == t then At(a, t)[..|At(a, t)| - 1] else At(a, t)
  {
  }

  lemma AtLast(a: seq<Entry>)
    requires a != []
    ensures var t := a[|a| - 1].timestamp; At(a, t) != [] && At(a, t)[|At(a, t)| - 1] == a[|a| - 1]
  {
  }

  // ----- the activity

  function FetchOutcome(known: Option<HighWater>, scan: Scan, mr: Settled<Message>, ms: Settled<SentMessage>,
      cr: Settled<Message>, cs: Settled<SentMessage>): FetchResult
  {
    var hw := known.GetOr(ZERO);
    if scan.ScanThrew? then FetchResult(false, [], hw, false)
    else
      var conductorId := if scan.Conductor? then scan.id else "";
      var (crv, csv) := if scan.Conductor? then (ValueOf(cr), ValueOf(cs)) else ([], []);
      FetchResult(true, SortByTime(Collected(hw, conductorId, ValueOf(mr), ValueOf(ms), crv, csv)),
                  HighWater(|ValueOf(mr)|, |ValueOf(ms)|, |crv|, |csv|), scan.Conductor?)
  }

  // ----- what an entry holds

  /** At most 500 characters stay; of a longer text the first 499, and an ellipsis. */
  predicate CutTo(text: string, original: string) {
    if |original| <= 500 then text == original
    else |text| == 502 && text[..499] == original[..499] && text[499..] == "..."
  }

  /** The entry is the record of a message that the maestro received. */
  predicate IsReceived(e: Entry, m: Message) {
    && e.id == m.id && e.from == m.from && e.to == "maestro" && e.text == m.text
    && e.timestamp == m.timestamp && e.role == MaestroIn && e.broadcastId == m.broadcastId
  }

  /** The entry is the record of a message that the maestro sent. */
  predicate IsSent(e: Entry, m: SentMessage) {
    && e.id == m.id && e.from == "maestro" && e.to == m.to && e.text == m.text
    && e.timestamp == m.timestamp && e.role == MaestroOut && e.broadcastId == m.broadcastId
  }

  /**
   * The entry is the record of a message that the conductor received from anybody but the maestro;
   * what it wrote to itself is turned to the maestro.
   */
  predicate IsConductorReceived(conductorId: string, e: Entry, m: Message) {
    && m.from != "maestro" && !m.isMaestro
    && e.id == "cond-" + m.id && e.from == m.from && CutTo(e.text, m.text)
    && e.timestamp == m.timestamp && e.broadcastId == m.broadcastId
    && (m.from == conductorId ==> e.to == "maestro" && e.role == MaestroIn)
    && (m.from != conductorId ==> e.to == conductorId && e.role == ConductorIn)
  }

  /** The entry is the record of a message that the conductor sent to anybody but the maestro. */
  predicate IsConductorSent(conductorId: string, e: Entry, m: SentMessage) {
    && m.to != "maestro"
    && e.id == "cond-" + m.id && e.from == conductorId && e.to == m.to && CutTo(e.text, m.text)
    && e.timestamp == m.timestamp && e.role == ConductorOut && e.broadcastId == m.broadcastId
  }

  /** The unread messages of a log that have the property. */
  ghost function Unread<T(!new)>(log: seq<T>, mark: nat, p: T -> bool): set<nat> {
    set i: nat | mark <= i < |log| && p(log[i])
  }

  /** How many unread messages of the four logs `e` is the record of. */
  ghost function RecordedBy(hw: HighWater, conductorId: string, mr: seq<Message>, ms: seq<SentMessage>,
      cr: seq<Message>, cs: seq<SentMessage>, e: Entry): nat
  {
    |Unread(mr, hw.maestroRecv, m => IsReceived(e, m))| + |Unread(ms, hw.maestroSent, m => IsSent(e, m))|
    + |Unread(cr, hw.conductorRecv, m => IsConductorReceived(conductorId, e, m))|
    + |Unread(cs, hw.conductorSent, m => IsConductorSent(conductorId, e, m))|
  }

  /**
   * What a call promises. It fails only when the scan does, and then changes nothing. Otherwise its
   * entries are in order of time, every entry occurs once for each unread message that it is the
   * record of, and the counts are the lengths of the logs that were read.
   */
  ghost predicate Promised(known: Option<HighWater>, scan: Scan, mr: Settled<Message>, ms: Settled<SentMessage>,
      cr: Settled<Message>, cs: Settled<SentMessage>, result: FetchResult)
  {
    var hw := if known.Some? then known.value else HighWater(0, 0, 0, 0);
    if scan.ScanThrew? then result == FetchResult(false, [], hw, false)
    else
      var mrs := if mr.Fulfilled? then mr.value else [];
      var mss := if ms.Fulfilled? then ms.value else [];
      var crs := if scan.Conductor? && cr.Fulfilled? then cr.value else [];
      var css := if scan.Conductor? && cs.Fulfilled? then cs.value else [];
      && result.success && result.hasConductor == scan.Conductor?
      && result.currentCounts == HighWater(|mrs|, |mss|, |crs|, |css|)
      && Sorted(result.newMessages)
      && forall e: Entry :: multiset(result.newMessages)[e]
           == RecordedBy(hw, if scan.Conductor? then scan.id else "", mrs, mss, crs, css, e)
  }

  lemma {:induction false} UnreadIsProjected<T(!new)>(project: T -> Option<Entry>, log: seq<T>, mark: nat, p: T -> bool,
      e: Entry)
    requires forall m: T :: p(m) <==> project(m) == Some(e)
    ensures |Unread(log, mark, p)| == multiset(Projected(project, From(log, mark)))[e]
  {
    hide *;
    if |log| <= mark {
      NothingUnread(project, log, mark, p);
    } else {
      var before, last := log[..|log| - 1], log[|log| - 1];
      UnreadIsProjected(project, before, mark, p, e);
      UnreadSnoc(log, mark, p);
      FromSnoc(log, mark);
      ProjectedLast(project, From(before, mark), last, e);
    }
  }

  lemma NothingUnread<T(!new)>(project: T -> Option<Entry>, log: seq<T>, mark: nat, p: T -> bool)
    requires |log| <= mark
    ensures Unread(log, mark, p) == {} && Projected(project, From(log, mark)) == []
  {
  }

  lemma UnreadSnoc<T(!new)>(log: seq<T>, mark: nat, p: T -> bool)
    requires mark < |log|
    ensures |Unread(log, mark, p)|
         == |Unread(log[..|log| - 1], mark, p)| + if p(log[|log| - 1]) then 1 else 0
  {
    var n := |log| - 1;
    var earlier := Unread(log[..n], mark, p);
    assert n !in earlier;
    if p(log[n]) {
      assert Unread(log, mark, p) == earlier + {n};
    } else {
      assert Unread(log, mark, p) == earlier;
    }
  }

  lemma FromSnoc<T>(log: seq<T>, mark: nat)
    requires mark < |log|
    ensures From(log, mark) == From(log[..|log| - 1], mark) + [log[|log| - 1]]
  {
  }

  lemma ProjectedLast<T>(project: T -> Option<Entry>, log: seq<T>, m: T, e: Entry)
    ensures multiset(Projected(project, log + [m]))[e]
         == multiset(Projected(project, log))[e] + if project(m) == Some(e) then 1 else 0
  {
    assert (log + [m])[..|log|] == log;
  }

  lemma RecordsAreProjections(conductorId: string, e: Entry)
    ensures forall m: Message :: IsReceived(e, m) <==> MaestroReceived(m) == Some(e)
    ensures forall m: SentMessage :: IsSent(e, m) <==> MaestroSent(m) == Some(e)
    ensures forall m: Message :: IsConductorReceived(conductorId, e, m) <==> ForReceived(conductorId)(m) == Some(e)
    ensures forall m: SentMessage :: IsConductorSent(conductorId, e, m) <==> ForSent(conductorId)(m) == Some(e)
  {
    hide CutTo, Truncate;
    forall m: Message
      ensures IsConductorReceived(conductorId, e, m) <==> ForReceived(conductorId)(m) == Some(e)
    {
      CutIsTruncated(e.text, m.text);
    }
    forall m: SentMessage
      ensures IsConductorSent(conductorId, e, m) <==> ForSent(conductorId)(m) == Some(e)
    {
      CutIsTruncated(e.text, m.text);
    }
  }

  lemma CutIsTruncated(text: string, original: string)
    ensures CutTo(text, original) <==> text == Truncate(original)
  {
    if |original| > 500 && CutTo(text, original) {
      assert text == text[..499] + text[499..];
    }
  }

  lemma CollectedIsRecorded(hw: HighWater, conductorId: string, mr: seq<Message>, ms: seq<SentMessage>,
      cr: seq<Message>, cs: seq<SentMessage>, e: Entry)
    ensures multiset(Collected(hw, conductorId, mr, ms, cr, cs))[e]
         == RecordedBy(hw, conductorId, mr, ms, cr, cs, e)
  {
    hide Projected, From, Unread, IsReceived, IsSent, IsConductorReceived, IsConductorSent, MaestroReceived,
         MaestroSent, ForReceived, ForSent;
    RecordsAreProjections(conductorId, e);
    UnreadIsProjected(MaestroReceived, mr, hw.maestroRecv, m => IsReceived(e, m), e);
    UnreadIsProjected(MaestroSent, ms, hw.maestroSent, m => IsSent(e, m), e);
    UnreadIsProjected(ForReceived(conductorId), cr, hw.conductorRecv, m => IsConductorReceived(conductorId, e, m), e);
    UnreadIsProjected(ForSent(conductorId), cs, hw.conductorSent, m => IsConductorSent(conductorId, e, m), e);
  }

  lemma OutcomeKeepsPromise(known: Option<HighWater>, scan: Scan, mr: Settled<Message>, ms: Settled<SentMessage>,
      cr: Settled<Message>, cs: Settled<SentMessage>)
    ensures Promised(known, scan, mr, ms, cr, cs, FetchOutcome(known, scan, mr, ms, cr, cs))
  {
    hide Collected, RecordedBy, SortByTime, Sorted;
    if !scan.ScanThrew? {
      var hw := known.GetOr(ZERO);
      var conductorId := if scan.Conductor? then scan.id else "";
      var crs := if scan.Conductor? then ValueOf(cr) else [];
      var css := if scan.Conductor? then ValueOf(cs) else [];
      SortIsStable(Collected(hw, conductorId, ValueOf(mr), ValueOf(ms), crs, css), 0);
      forall e: Entry
        ensures multiset(Collected(hw, conductorId, ValueOf(mr), ValueOf(ms), crs, css))[e]
             == RecordedBy(hw, conductorId, ValueOf(mr), ValueOf(ms), crs, css, e)
      {
        CollectedIsRecorded(hw, conductorId, ValueOf(mr), ValueOf(ms), crs, css, e);
      }
    }
  }

  /** One loop of pushes. */
  method Push<T>(newMessages: seq<Entry>, project: T -> Option<Entry>, slice: seq<T>) returns (r: seq<Entry>)
    ensures r == newMessages + Projected(project, slice)
  {
    r := newMessages;
    for i := 0 to |slice|
      invariant r == newMessages + Projected(project, slice[..i])
    {
      var entry := project(slice[i]);
      assert slice[..i + 1][..i] == slice[..i];
      if entry.Some? { r := r + [entry.value]; }
    }
    assert slice[..|slice|] == slice;
  }

  method FetchEnsembleChat(known: Option<HighWater>, scan: Scan, mr: Settled<Message>, ms: Settled<SentMessage>,
      cr: Settled<Message>, cs: Settled<SentMessage>) returns (result: FetchResult)
    ensures result == FetchOutcome(known, scan, mr, ms, cr, cs)
    ensures Promised(known, scan, mr, ms, cr, cs, result)
  {
    hide Projected, SortByTime, From, Promised, MaestroReceived, MaestroSent, ConductorReceived, ConductorSent;
    OutcomeKeepsPromise(known, scan, mr, ms, cr, cs);
    var hw := known.GetOr(ZERO);
    if scan.ScanThrew? { return FetchResult(false, [], hw, false); }
    var conductorId := if scan.Conductor? then scan.id else "";
    var maestroRecv, maestroSent := ValueOf(mr), ValueOf(ms);
    var condRecv, condSent := [], [];
    if scan.Conductor? { condRecv, condSent := ValueOf(cr), ValueOf(cs); }
    var newMessages := Push([], MaestroReceived, From(maestroRecv, hw.maestroRecv));
    newMessages := Push(newMessages, MaestroSent, From(maestroSent, hw.maestroSent));
    newMessages := Push(newMessages, ForReceived(conductorId), From(condRecv, hw.conductorRecv));
    newMessages := Push(newMessages, ForSent(conductorId), From(condSent, hw.conductorSent));
    assert newMessages == Collected(hw, conductorId, maestroRecv, maestroSent, condRecv, condSent);
    newMessages := SortByTime(newMessages);
    result := FetchResult(true, newMessages, HighWater(|maestroRecv|, |maestroSent|, |condRecv|, |condSent|),
      scan.Conductor?);
  }
}
