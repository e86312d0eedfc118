/**
 * How often a message shows in the chat when two of the four logs may hold it: the one its sender
 * keeps (`src/workflows/session.ts:468-486`, `634-644`) and the one its addressee keeps
 * (`src/workflows/session.ts:513-530`, `1342-1355`).
 */
module ChatMirror {
  import opened Options
  import opened ChatFetch
  import opened ChatDelivery

  datatype Party = TheMaestro | TheConductor | Someone

  /**
   * One message and its two records. The sender's record may fail to be `kept`, and the message may
   * not have `arrived`.
   */
  datatype Said = Said(from: Party, to: Party, sent: SentMessage, received: Message, kept: bool, arrived: bool)

  function Kept(history: seq<Said>, writer: Party): seq<SentMessage> {
    if history == [] then []
    else
      var last := history[|history| - 1];
      Kept(history[..|history| - 1], writer) + if last.from == writer && last.kept then [last.sent] else []
  }

  function Arrived(history: seq<Said>, at: Party): seq<Message> {
    if history == [] then []
    else
      var last := history[|history| - 1];
      Arrived(history[..|history| - 1], at) + if last.to == at && last.arrived then [last.received] else []
  }

  /** The four logs hold the records of the history, each in an order of its own. */
  ghost predicate Hold(logs: Logs, history: seq<Said>) {
    && multiset(logs.maestroRecv) == multiset(Arrived(history, TheMaestro))
    && multiset(logs.maestroSent) == multiset(Kept(history, TheMaestro))
    && multiset(logs.condRecv) == multiset(Arrived(history, TheConductor))
    && multiset(logs.condSent) == multiset(Kept(history, TheConductor))
  }

  function Bag(e: Option<Entry>): multiset<Entry> {
    if e.Some? then multiset{e.value} else multiset{}
  }

  function BagIf(b: bool, e: Option<Entry>): multiset<Entry> {
    if b then Bag(e) else multiset{}
  }

  /** The entries of one message. */
  function Shown(conductorId: string, m: Said): multiset<Entry> {
    BagIf(m.to.TheMaestro? && m.arrived, MaestroReceived(m.received))
    + BagIf(m.from.TheMaestro? && m.kept, MaestroSent(m.sent))
    + BagIf(m.to.TheConductor? && m.arrived, ConductorReceived(conductorId, m.received))
    + BagIf(m.from.TheConductor? && m.kept, ConductorSent(conductorId, m.sent))
  }

  function AllShown(conductorId: string, history: seq<Said>): multiset<Entry> {
    if history == [] then multiset{}
    else AllShown(conductorId, history[..|history| - 1]) + Shown(conductorId, history[|history| - 1])
  }

  // ----- the order of a log does not matter

  lemma SkipSnoc<T>(project: T -> Option<Entry>, log: seq<T>, m: T)
    ensures Projected(project, log + [m]) ==
      Projected(project, log) + if project(m).Some? then [project(m).value] else []
  {
    assert (log + [m])[..|log|] == log;
  }

  lemma {:induction false} ProjectedJoin<T>(project: T -> Option<Entry>, a: seq<T>, b: seq<T>)
    ensures Projected(project, a + b) == Projected(project, a) + Projected(project, b)
  {
    if b == [] {
      assert a + b == a;
    } else {
      ProjectedJoin(project, a, b[..|b| - 1]);
      assert (a + b)[..|a + b| - 1] == a + b[..|b| - 1];
    }
  }

  lemma ProjectedBag<T>(project: T -> Option<Entry>, log: seq<T>, m: T)
    ensures multiset(Projected(project, log + [m])) == multiset(Projected(project, log)) + Bag(project(m))
  {
    SkipSnoc(project, log, m);
  }

  lemma WithoutOne<T>(project: T -> Option<Entry>, log: seq<T>, i: nat)
    requires i < |log|
    ensures var rest := log[..i] + log[i + 1..];
      && multiset(log) == multiset(rest) + multiset{log[i]}
      && multiset(Projected(project, log)) == multiset(Projected(project, rest)) + Bag(project(log[i]))
  {
    hide Projected;
    var a, b := log[..i], log[i + 1..];
    assert log == a + [log[i]] + b;
    ProjectedJoin(project, a + [log[i]], b);
    ProjectedJoin(project, a, b);
    ProjectedBag(project, a, log[i]);
  }

  lemma WithoutLast<T>(project: T -> Option<Entry>, log: seq<T>)
    requires log != []
    ensures var rest, last := log[..|log| - 1], log[|log| - 1];
      && multiset(log) == multiset(rest) + multiset{last}
      && multiset(Projected(project, log)) == multiset(Projected(project, rest)) + Bag(project(last))
  {
    hide Projected;
    var rest, last := log[..|log| - 1], log[|log| - 1];
    assert log == rest + [last];
    ProjectedBag(project, rest, last);
  }

  lemma Cancel<T>(a: multiset<T>, b: multiset<T>, x: T)
    requires a + multiset{x} == b + multiset{x}
    ensures a == b
  {
    assert a == a + multiset{x} - multiset{x} && b == b + multiset{x} - multiset{x};
  }

  lemma Position<T>(log: seq<T>, bag: multiset<T>, x: T) returns (i: nat)
    requires multiset(log) == bag + multiset{x}
    ensures i < |log| && log[i] == x
  {
    assert x in multiset(log);
    i :| 0 <= i < |log| && log[i] == x;
  }

  lemma {:induction false} ProjectedAnyOrder<T>(project: T -> Option<Entry>, a: seq<T>, b: seq<T>)
    requires multiset(a) == multiset(b)
    ensures multiset(Projected(project, a)) == multiset(Projected(project, b))
    decreases |a|
  {
    hide *;
    if a == [] {
      assert |b| == |multiset(b)| == 0;
    } else {
      var restA, last := a[..|a| - 1], a[|a| - 1];
      WithoutLast(project, a);
      var i := Position(b, multiset(restA), last);
      var restB := b[..i] + b[i + 1..];
      WithoutOne(project, b, i);
      Cancel(multiset(restA), multiset(restB), last);
      ProjectedAnyOrder(project, restA, restB);
    }
  }

  // ----- what a fetch of everything collects

  lemma {:induction false} ArrivedShows(project: Message -> Option<Entry>, history: seq<Said>, at: Party)
    requires history != []
    ensures var last := history[|history| - 1];
      multiset(Projected(project, Arrived(history, at)))
        == multiset(Projected(project, Arrived(history[..|history| - 1], at)))
           + BagIf(last.to == at && last.arrived, project(last.received))
  {
    hide Projected, Bag;
    var last := history[|history| - 1];
    ProjectedBag(project, Arrived(history[..|history| - 1], at), last.received);
    assert Arrived(history[..|history| - 1], at) + [] == Arrived(history[..|history| - 1], at);
  }

  lemma {:induction false} KeptShows(project: SentMessage -> Option<Entry>, history: seq<Said>, writer: Party)
    requires history != []
    ensures var last := history[|history| - 1];
      multiset(Projected(project, Kept(history, writer)))
        == multiset(Projected(project, Kept(history[..|history| - 1], writer)))
           + BagIf(last.from == writer && last.kept, project(last.sent))
  {
    hide Projected, Bag;
    var last := history[|history| - 1];
    ProjectedBag(project, Kept(history[..|history| - 1], writer), last.sent);
    assert Kept(history[..|history| - 1], writer) + [] == Kept(history[..|history| - 1], writer);
  }

  function FourProjections(conductorId: string, mr: seq<Message>, ms: seq<SentMessage>, cr: seq<Message>,
      cs: seq<SentMessage>): multiset<Entry>
  {
    multiset(Projected(MaestroReceived, mr)) + multiset(Projected(MaestroSent, ms))
    + multiset(Projected(ForReceived(conductorId), cr)) + multiset(Projected(ForSent(conductorId), cs))
  }

  lemma {:induction false} HistoryIsShown(conductorId: string, history: seq<Said>)
    ensures FourProjections(conductorId, Arrived(history, TheMaestro), Kept(history, TheMaestro),
                            Arrived(history, TheConductor), Kept(history, TheConductor))
         == AllShown(conductorId, history)
  {
    hide Projected, Arrived, Kept, Bag, BagIf;
    if history == [] {
      NothingShown(conductorId);
    } else {
      var before, last := history[..|history| - 1], history[|history| - 1];
      HistoryIsShown(conductorId, before);
      ArrivedShows(MaestroReceived, history, TheMaestro);
      KeptShows(MaestroSent, history, TheMaestro);
      ArrivedShows(ForReceived(conductorId), history, TheConductor);
      KeptShows(ForSent(conductorId), history, TheConductor);
      Regroup(multiset(Projected(MaestroReceived, Arrived(before, TheMaestro))),
              multiset(Projected(MaestroSent, Kept(before, TheMaestro))),
              multiset(Projected(ForReceived(conductorId), Arrived(before, TheConductor))),
              multiset(Projected(ForSent(conductorId), Kept(before, TheConductor))),
              BagIf(last.to.TheMaestro? && last.arrived, MaestroReceived(last.received)),
              BagIf(last.from.TheMaestro? && last.kept, MaestroSent(last.sent)),
              BagIf(last.to.TheConductor? && last.arrived, ConductorReceived(conductorId, last.received)),
              BagIf(last.from.TheConductor? && last.kept, ConductorSent(conductorId, last.sent)));
    }
  }

  lemma NothingShown(conductorId: string)
    ensures FourProjections(conductorId, Arrived([], TheMaestro), Kept([], TheMaestro),
                            Arrived([], TheConductor), Kept([], TheConductor)) == AllShown(conductorId, [])
  {
  }

  lemma Regroup<T>(a: multiset<T>, b: multiset<T>, c: multiset<T>, d: multiset<T>,
      p: multiset<T>, q: multiset<T>, r: multiset<T>, s: multiset<T>)
    ensures (a + p) + (b + q) + (c + r) + (d + s) == (a + b + c + d) + (p + q + r + s)
  {
  }

  /** Reading all four logs collects exactly the entries of the messages, whatever order each log keeps. */
  lemma CollectedIsShown(conductorId: string, logs: Logs, history: seq<Said>)
    requires Hold(logs, history)
    ensures multiset(Collected(ZERO, conductorId, logs.maestroRecv, logs.maestroSent, logs.condRecv, logs.condSent))
         == AllShown(conductorId, history)
  {
    hide Projected, Arrived, Kept, AllShown;
    LogsAreShown(conductorId, logs, history);
    assert From(logs.maestroRecv, 0) == logs.maestroRecv && From(logs.maestroSent, 0) == logs.maestroSent;
    assert From(logs.condRecv, 0) == logs.condRecv && From(logs.condSent, 0) == logs.condSent;
  }

  lemma LogsAreShown(conductorId: string, logs: Logs, history: seq<Said>)
    requires Hold(logs, history)
    ensures FourProjections(conductorId, logs.maestroRecv, logs.maestroSent, logs.condRecv, logs.condSent)
         == AllShown(conductorId, history)
  {
    hide Projected, Arrived, Kept, AllShown;
    HistoryIsShown(conductorId, history);
    ProjectedAnyOrder(MaestroReceived, logs.maestroRecv, Arrived(history, TheMaestro));
    ProjectedAnyOrder(MaestroSent, logs.maestroSent, Kept(history, TheMaestro));
    ProjectedAnyOrder(ForReceived(conductorId), logs.condRecv, Arrived(history, TheConductor));
    ProjectedAnyOrder(ForSent(conductorId), logs.condSent, Kept(history, TheConductor));
  }

  /** And over a run without a failed query each message is delivered as often as it is shown here. */
  lemma RunDeliversHistory(conductorId: string, rounds: seq<Round>, history: seq<Said>)
    requires rounds != [] && rounds[|rounds| - 1].scan.Conductor?
    requires forall i | 0 <= i < |rounds| :: AllOrNothing(rounds[i], conductorId)
    requires AppendOnly(rounds, rounds[|rounds| - 1].logs, conductorId)
    requires Hold(rounds[|rounds| - 1].logs, history)
    ensures Delivered(rounds) == AllShown(conductorId, history)
  {
    hide Projected, Delivered, AppendOnly, AllOrNothing, Hold, AllShown;
    UndisturbedRun(rounds, conductorId);
    LogsAreShown(conductorId, rounds[|rounds| - 1].logs, history);
  }

  // ----- how often one message shows

  /** The addressee's record says that the maestro wrote it. */
  predicate MarkedMaestro(m: Message) {
    m.from == "maestro" || m.isMaestro
  }

  /**
   * A message between maestro and conductor, with both records in place, shows exactly once if and
   * only if the conductor's record names the maestro, and then as the maestro's record. Without the
   * maestro's record it does not show at all: the conductor's copy never stands in for it.
   */
  lemma MirroredOnce(conductorId: string, m: Said)
    ensures m.from.TheMaestro? && m.to.TheConductor? && m.kept && m.arrived ==>
              && (|Shown(conductorId, m)| == 1 <==> MarkedMaestro(m.received))
              && (MarkedMaestro(m.received) ==> Shown(conductorId, m) == multiset{MaestroSent(m.sent).value})
    ensures m.from.TheConductor? && m.to.TheMaestro? && m.kept && m.arrived ==>
              && (|Shown(conductorId, m)| == 1 <==> m.sent.to == "maestro")
              && (m.sent.to == "maestro" ==> Shown(conductorId, m) == multiset{MaestroReceived(m.received).value})
    ensures m.from.TheMaestro? && m.to.TheConductor? && !m.kept && MarkedMaestro(m.received) ==>
              Shown(conductorId, m) == multiset{}
    ensures m.from.TheConductor? && m.to.TheMaestro? && !m.arrived && m.sent.to == "maestro" ==>
              Shown(conductorId, m) == multiset{}
  {
    hide ConductorReceived, ConductorSent, MaestroReceived, MaestroSent;
    Skipped(conductorId, m);
  }

  lemma Skipped(conductorId: string, m: Said)
    ensures ConductorReceived(conductorId, m.received).None? <==> MarkedMaestro(m.received)
    ensures ConductorSent(conductorId, m.sent).None? <==> m.sent.to == "maestro"
    ensures MaestroReceived(m.received).Some? && MaestroSent(m.sent).Some?
  {
  }

  /** The records name the parties as the program writes them. */
  predicate Named(m: Said) {
    (m.from.TheMaestro? <==> MarkedMaestro(m.received)) && (m.to.TheMaestro? <==> m.sent.to == "maestro")
  }

  /**
   * How often any message with both records in place shows: not at all between two other players,
   * twice when maestro or conductor write to themselves, and once otherwise.
   */
  lemma ShownHowOften(conductorId: string, m: Said)
    requires Named(m) && m.kept && m.arrived
    ensures |Shown(conductorId, m)| == if m.from.Someone? && m.to.Someone? then 0 else if m.from == m.to then 2 else 1
  {
    hide ConductorReceived, ConductorSent, MaestroReceived, MaestroSent;
    Skipped(conductorId, m);
  }

  /**
   * The conductor's report to itself shows twice: turned to the maestro, as it should, and as the
   * message from the conductor to itself that this was to avoid.
   */
  lemma SelfReportShowsTwice(conductorId: string, m: Said)
    requires Named(m) && m.kept && m.arrived && m.from.TheConductor? && m.to.TheConductor?
    requires m.received.from == conductorId
    ensures exists turned: Entry, loop: Entry ::
      && Shown(conductorId, m) == multiset{turned, loop}
      && turned.from == conductorId && turned.to == "maestro" && turned.role == MaestroIn
      && loop.from == conductorId && loop.to == m.sent.to && loop.role == ConductorOut
  {
    var turned, loop := ConductorReceived(conductorId, m.received).value, ConductorSent(conductorId, m.sent).value;
    assert Shown(conductorId, m) == multiset{turned, loop};
  }
}
