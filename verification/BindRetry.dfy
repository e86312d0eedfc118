/**
 * The HTTP bind retry loop of the daemon (src/daemon.ts:634-700): capped exponential backoff,
 * a warning at most once per beacon interval, and one report on recovery.
 *
 * A run is driven by what the loop is told in each round. A list of rounds that ends before
 * the loop does stands for a loop that is still going.
 */
module BindRetry {
  import opened Options

  /** `base`, `cap` and `beacon` are milliseconds; the defaults are 1000, 30000 and 300000. */
  datatype Settings = Settings(base: nat, cap: nat, beacon: nat)

  const DEFAULTS := Settings(1_000, 30_000, 300_000)

  /** Binding succeeds or not; after success the recovery callback may itself throw. */
  datatype Reply = Refused | Bound(callbackThrows: bool)

  /**
   * One round: the two looks at the shutdown flag, the attempt, and the two reads of the clock
   * that a failure costs, one to compare and one to remember.
   */
  datatype Round = Round(stopBefore: bool, stopAfter: bool, reply: Reply, comparedAt: int, stampedAt: int)

  datatype Event =
    | Degraded
    | Looked(stopping: bool)
    | Slept(ms: nat)
    | Attempted(count: nat)
    | Reported(count: nat)
    | Failed(count: nat, at: int)
    | Warned(count: nat, at: int)

  datatype Outcome = Recovered | Shutdown | Going

  datatype Run = Run(log: seq<Event>, outcome: Outcome)

  function Pow2(n: nat): (p: nat)
    ensures p >= 1
  {
    if n == 0 then 1 else 2 * Pow2(n - 1)
  }

  function Min(a: nat, b: nat): nat {
    if a < b then a else b
  }

  function Delay(s: Settings, retry: nat): nat {
    Min(s.cap, s.base * Pow2(Min(retry, 31)))
  }

  predicate Due(s: Settings, last: Option<int>, now: int) {
    last.None? || now - last.value >= s.beacon
  }

  function If(b: bool, e: Event): seq<Event> {
    if b then [e] else []
  }

  /** A round up to its attempt. */
  function Begun(s: Settings, r: Round, retry: nat, rest: seq<Event>): seq<Event> {
    [Looked(false)] + ([Slept(Delay(s, retry))] + ([Looked(false)] + ([Attempted(retry + 1)]
    + (If(r.reply.Bound?, Reported(retry + 1)) + rest))))
  }

  /** A failure, and the warning it may be worth. */
  function Failure(s: Settings, r: Round, retry: nat, last: Option<int>, rest: seq<Event>): seq<Event> {
    [Failed(retry + 1, r.comparedAt)] + (If(Due(s, last, r.comparedAt), Warned(retry + 1, r.stampedAt)) + rest)
  }

  function Next(s: Settings, r: Round, last: Option<int>): Option<int> {
    if Due(s, last, r.comparedAt) then Some(r.stampedAt) else last
  }

  /** The loop from its `retry`-th round on, when the last warning was at `last`. */
  function Loop(s: Settings, rounds: seq<Round>, retry: nat, last: Option<int>): Run {
    if rounds == [] then Run([], Going)
    else
      var r := rounds[0];
      if r.stopBefore then Run([Looked(true)], Shutdown)
      else if r.stopAfter then Run([Looked(false)] + ([Slept(Delay(s, retry))] + [Looked(true)]), Shutdown)
      else if r.reply.Bound? && !r.reply.callbackThrows then Run(Begun(s, r, retry, []), Recovered)
      else
        var rest := Loop(s, rounds[1..], retry + 1, Next(s, r, last));
        Run(Begun(s, r, retry, Failure(s, r, retry, last, rest.log)), rest.outcome)
  }

  /** The degraded state is advertised before the first round, and never again. */
  function Whole(s: Settings, rounds: seq<Round>): Run {
    var run := Loop(s, rounds, 0, None);
    Run([Degraded] + run.log, run.outcome)
  }

  /** A round that gets as far as its attempt and does not end the loop. */
  predicate GoesOn(r: Round) {
    !r.stopBefore && !r.stopAfter && (r.reply.Refused? || r.reply.callbackThrows)
  }

  /** The log after an attempt, as the loop builds it up. */
  function Tried(s: Settings, r: Round, retry: nat, before: seq<Event>): seq<Event> {
    before + [Looked(false)] + [Slept(Delay(s, retry))] + [Looked(false)] + [Attempted(retry + 1)]
    + If(r.reply.Bound?, Reported(retry + 1))
  }

  lemma BegunIsTried(s: Settings, r: Round, retry: nat, before: seq<Event>, rest: seq<Event>)
    ensures before + Begun(s, r, retry, rest) == Tried(s, r, retry, before) + rest
  {
    hide Delay;
  }

  lemma FailureIs(s: Settings, r: Round, retry: nat, last: Option<int>, tried: seq<Event>, rest: seq<Event>)
    ensures tried + Failure(s, r, retry, last, rest) ==
      tried + [Failed(retry + 1, r.comparedAt)] + If(Due(s, last, r.comparedAt), Warned(retry + 1, r.stampedAt)) + rest
  {
    hide Due;
  }

  /** Everything a round that goes on adds to the log. */
  function Lapped(s: Settings, r: Round, retry: nat, last: Option<int>, before: seq<Event>): seq<Event> {
    Tried(s, r, retry, before) + [Failed(retry + 1, r.comparedAt)]
    + If(Due(s, last, r.comparedAt), Warned(retry + 1, r.stampedAt))
  }

  function Rest(s: Settings, rounds: seq<Round>, retry: nat, last: Option<int>): Run
    requires rounds != []
  {
    Loop(s, rounds[1..], retry + 1, Next(s, rounds[0], last))
  }

  lemma LoopGoesOn(s: Settings, rounds: seq<Round>, retry: nat, last: Option<int>, before: seq<Event>)
    requires rounds != [] && GoesOn(rounds[0])
    ensures var now, rest := Loop(s, rounds, retry, last), Rest(s, rounds, retry, last);
      && now.outcome == rest.outcome
      && before + now.log == Lapped(s, rounds[0], retry, last, before) + rest.log
  {
    hide Delay, Due, Tried, Begun, Failure;
    var r, rest := rounds[0], Rest(s, rounds, retry, last).log;
    FailureIs(s, r, retry, last, Tried(s, r, retry, before), rest);
    BegunIsTried(s, r, retry, before, Failure(s, r, retry, last, rest));
  }

  lemma LoopEnds(s: Settings, rounds: seq<Round>, retry: nat, last: Option<int>, before: seq<Event>)
    requires rounds != [] && !GoesOn(rounds[0])
    ensures var r, now := rounds[0], Loop(s, rounds, retry, last);
      Run(before + now.log, now.outcome) ==
        if r.stopBefore then Run(before + [Looked(true)], Shutdown)
        else if r.stopAfter then Run(before + [Looked(false)] + [Slept(Delay(s, retry))] + [Looked(true)], Shutdown)
        else Run(Tried(s, r, retry, before), Recovered)
  {
    hide Delay, Tried, Begun;
    BegunIsTried(s, rounds[0], retry, before, []);
    assert Tried(s, rounds[0], retry, before) + [] == Tried(s, rounds[0], retry, before);
  }

  method RunHttpBindRetryLoop(s: Settings, rounds: seq<Round>) returns (log: seq<Event>, outcome: Outcome)
    ensures Run(log, outcome) == Whole(s, rounds)
  {
    log := [Degraded];
    var last: Option<int> := None;
    var retry := 0;
    assert rounds[0..] == rounds;
    while retry < |rounds|
      invariant retry <= |rounds|
      invariant var rest := Loop(s, rounds[retry..], retry, last);
        Whole(s, rounds) == Run(log + rest.log, rest.outcome)
    {
      hide Loop, Delay;
      var r := rounds[retry];
      assert rounds[retry..][0] == r && rounds[retry..][1..] == rounds[retry + 1..];
      if GoesOn(r) {
        LoopGoesOn(s, rounds[retry..], retry, last, log);
      } else {
        LoopEnds(s, rounds[retry..], retry, last, log);
      }
      log := log + [Looked(r.stopBefore)];
      if r.stopBefore { return log, Shutdown; }
      log := log + [Slept(Delay(s, retry))];
      log := log + [Looked(r.stopAfter)];
      if r.stopAfter { return log, Shutdown; }
      log := log + [Attempted(retry + 1)];
      log := log + If(r.reply.Bound?, Reported(retry + 1));
      if r.reply.Bound? && !r.reply.callbackThrows { return log, Recovered; }
      log := log + [Failed(retry + 1, r.comparedAt)];
      var due := last.None? || r.comparedAt - last.value >= s.beacon;
      log := log + If(due, Warned(retry + 1, r.stampedAt));
      if due {
        last := Some(r.stampedAt);
      }
      retry := retry + 1;
    }
    outcome := Going;
  }

  // ---------------------------------------------------------------------------------------
  // Backoff
  // ---------------------------------------------------------------------------------------

  lemma {:induction false} Pow2Grows(m: nat, n: nat)
    requires m <= n
    ensures Pow2(m) <= Pow2(n)
  {
    if m < n {
      Pow2Grows(m, n - 1);
    }
  }

  lemma Scale(base: nat, p: nat, q: nat)
    requires p <= q
    ensures base * p <= base * q
  {
  }

  /** Delays never shrink and never exceed the cap. */
  lemma DelaysGrow(s: Settings, m: nat, n: nat)
    requires m <= n
    ensures Delay(s, m) <= Delay(s, n) <= s.cap
  {
    Pow2Grows(Min(m, 31), Min(n, 31));
    Scale(s.base, Pow2(Min(m, 31)), Pow2(Min(n, 31)));
  }

  /** The time slept before the first `n` attempts. */
  function Waited(s: Settings, n: nat): nat {
    if n == 0 then 0 else Waited(s, n - 1) + Delay(s, n - 1)
  }

  lemma DefaultCapReached(n: nat)
    requires n >= 5
    ensures Delay(DEFAULTS, n) == 30_000
  {
    assert Pow2(5) == 32;
    Pow2Grows(5, Min(n, 31));
  }

  /** With the defaults: 1, 2, 4, 8 and 16 seconds, and then 30 for every further attempt. */
  lemma {:induction false} DefaultWait(n: nat)
    requires n >= 5
    ensures Waited(DEFAULTS, n) == 31_000 + 30_000 * (n - 5)
  {
    if n == 5 {
      assert Pow2(4) == 16 && Pow2(3) == 8 && Pow2(2) == 4 && Pow2(1) == 2 && Pow2(0) == 1;
      assert Waited(DEFAULTS, 2) == 3_000;
      assert Waited(DEFAULTS, 4) == 15_000;
    } else {
      DefaultWait(n - 1);
      DefaultCapReached(n - 1);
    }
  }

  // ---------------------------------------------------------------------------------------
  // Reading a log
  // ---------------------------------------------------------------------------------------

  /** The numbers that `f` picks out of a log, in order. */
  function Pick(log: seq<Event>, f: Event -> Option<int>): seq<int> {
    if log == [] then [] else One(log[0], f) + Pick(log[1..], f)
  }

  function One(e: Event, f: Event -> Option<int>): seq<int> {
    if f(e).Some? then [f(e).value] else []
  }

  function SleptFor(e: Event): Option<int> {
    if e.Slept? then Some(e.ms) else None
  }

  function AttemptNumber(e: Event): Option<int> {
    if e.Attempted? then Some(e.count) else None
  }

  function ReportedCount(e: Event): Option<int> {
    if e.Reported? then Some(e.count) else None
  }

  function WarnedAt(e: Event): Option<int> {
    if e.Warned? then Some(e.at) else None
  }

  lemma PickCons(e: Event, log: seq<Event>, f: Event -> Option<int>)
    ensures Pick([e] + log, f) == One(e, f) + Pick(log, f)
  {
    assert ([e] + log)[1..] == log;
  }

  lemma PickIf(b: bool, e: Event, log: seq<Event>, f: Event -> Option<int>)
    ensures Pick(If(b, e) + log, f) == (if b then One(e, f) else []) + Pick(log, f)
  {
    PickCons(e, log, f);
    assert [] + log == log;
  }

  lemma PickBegun(s: Settings, r: Round, retry: nat, rest: seq<Event>, f: Event -> Option<int>)
    requires f(Looked(false)).None?
    ensures Pick(Begun(s, r, retry, rest), f) ==
      One(Slept(Delay(s, retry)), f) + (One(Attempted(retry + 1), f)
      + ((if r.reply.Bound? then One(Reported(retry + 1), f) else []) + Pick(rest, f)))
  {
    hide Pick, Delay, If;
    var l1 := If(r.reply.Bound?, Reported(retry + 1)) + rest;
    PickIf(r.reply.Bound?, Reported(retry + 1), rest, f);
    var l2 := [Attempted(retry + 1)] + l1;
    PickCons(Attempted(retry + 1), l1, f);
    var l3 := [Looked(false)] + l2;
    PickCons(Looked(false), l2, f);
    var l4 := [Slept(Delay(s, retry))] + l3;
    PickCons(Slept(Delay(s, retry)), l3, f);
    PickCons(Looked(false), l4, f);
  }

  lemma PickFailure(s: Settings, r: Round, retry: nat, last: Option<int>, rest: seq<Event>, f: Event -> Option<int>)
    ensures Pick(Failure(s, r, retry, last, rest), f) ==
      One(Failed(retry + 1, r.comparedAt), f)
      + ((if Due(s, last, r.comparedAt) then One(Warned(retry + 1, r.stampedAt), f) else []) + Pick(rest, f))
  {
    hide Pick, Due, If;
    var due := Due(s, last, r.comparedAt);
    PickIf(due, Warned(retry + 1, r.stampedAt), rest, f);
    PickCons(Failed(retry + 1, r.comparedAt), If(due, Warned(retry + 1, r.stampedAt)) + rest, f);
  }

  /** What one round contributes to a pick when the loop goes on. */
  lemma PickRound(s: Settings, rounds: seq<Round>, retry: nat, last: Option<int>, f: Event -> Option<int>)
    requires rounds != [] && GoesOn(rounds[0])
    requires f(Looked(false)).None?
    ensures var r, rest := rounds[0], Rest(s, rounds, retry, last);
      && Loop(s, rounds, retry, last).outcome == rest.outcome
      && Pick(Loop(s, rounds, retry, last).log, f) ==
        One(Slept(Delay(s, retry)), f) + (One(Attempted(retry + 1), f)
        + ((if r.reply.Bound? then One(Reported(retry + 1), f) else [])
        + (One(Failed(retry + 1, r.comparedAt), f)
        + ((if Due(s, last, r.comparedAt) then One(Warned(retry + 1, r.stampedAt), f) else []) + Pick(rest.log, f)))))
  {
    hide Pick, Delay, Due, Begun, Failure;
    var r, rest := rounds[0], Rest(s, rounds, retry, last);
    PickFailure(s, r, retry, last, rest.log, f);
    PickBegun(s, r, retry, Failure(s, r, retry, last, rest.log), f);
  }

  /** What the last round contributes. */
  lemma PickEnd(s: Settings, rounds: seq<Round>, retry: nat, last: Option<int>, f: Event -> Option<int>)
    requires rounds == [] || !GoesOn(rounds[0])
    requires f(Looked(false)).None? && f(Looked(true)).None?
    ensures Pick(Loop(s, rounds, retry, last).log, f) ==
      if rounds == [] || rounds[0].stopBefore then []
      else if rounds[0].stopAfter then One(Slept(Delay(s, retry)), f)
      else One(Slept(Delay(s, retry)), f) + (One(Attempted(retry + 1), f) + One(Reported(retry + 1), f))
  {
    hide Delay, Begun, Pick;
    PickNothing(f);
    PickCons(Looked(true), [], f);
    assert [Looked(true)] + [] == [Looked(true)];
    PickCons(Slept(Delay(s, retry)), [Looked(true)], f);
    PickCons(Looked(false), [Slept(Delay(s, retry))] + [Looked(true)], f);
    if rounds != [] {
      PickBegun(s, rounds[0], retry, [], f);
    }
  }

  lemma PickNothing(f: Event -> Option<int>)
    ensures Pick([], f) == []
  {
  }

  // ---------------------------------------------------------------------------------------
  // Attempts, sleeps and reports
  // ---------------------------------------------------------------------------------------

  /** How many attempts are made. */
  function Made(rounds: seq<Round>): (n: nat)
    ensures n <= |rounds|
  {
    if rounds == [] || rounds[0].stopBefore || rounds[0].stopAfter then 0
    else if GoesOn(rounds[0]) then 1 + Made(rounds[1..])
    else 1
  }

  function Counted(first: nat, n: nat): seq<int> {
    seq(n, i => first + i)
  }

  function Backoffs(s: Settings, first: nat, n: nat): seq<int> {
    seq(n, i requires 0 <= i => Delay(s, first + i))
  }

  /** The rounds in which the port was bound, by the number of their attempt. */
  function Bounds(rounds: seq<Round>, retry: nat): seq<int> {
    if rounds == [] then []
    else (if rounds[0].reply.Bound? then [retry + 1] else []) + Bounds(rounds[1..], retry + 1)
  }

  /** The attempts are numbered one after the other. */
  lemma {:induction false} AttemptsAreNumbered(s: Settings, rounds: seq<Round>, retry: nat, last: Option<int>)
    ensures Pick(Loop(s, rounds, retry, last).log, AttemptNumber) == Counted(retry + 1, Made(rounds))
  {
    hide Loop, Delay, Pick;
    if rounds == [] || !GoesOn(rounds[0]) {
      PickEnd(s, rounds, retry, last, AttemptNumber);
    } else {
      PickRound(s, rounds, retry, last, AttemptNumber);
      AttemptsAreNumbered(s, rounds[1..], retry + 1, Next(s, rounds[0], last));
      assert Counted(retry + 1, Made(rounds)) == [retry + 1] + Counted(retry + 2, Made(rounds) - 1);
    }
  }

  /** The k-th attempt comes after the k-th delay, and at most one sleep leads to no attempt. */
  lemma {:induction false} SleepsAreBackoffs(s: Settings, rounds: seq<Round>, retry: nat, last: Option<int>)
    ensures var slept := Pick(Loop(s, rounds, retry, last).log, SleptFor);
      slept == Backoffs(s, retry, |slept|) && Made(rounds) <= |slept| <= Made(rounds) + 1
  {
    hide Loop, Delay, Pick;
    var slept := Pick(Loop(s, rounds, retry, last).log, SleptFor);
    if rounds == [] || !GoesOn(rounds[0]) {
      PickEnd(s, rounds, retry, last, SleptFor);
      assert Backoffs(s, retry, 1) == [Delay(s, retry)];
    } else {
      PickRound(s, rounds, retry, last, SleptFor);
      SleepsAreBackoffs(s, rounds[1..], retry + 1, Next(s, rounds[0], last));
      assert Backoffs(s, retry, |slept|) == [Delay(s, retry)] + Backoffs(s, retry + 1, |slept| - 1);
    }
  }

  /**
   * Recovery is reported for exactly the attempts that bound the port, each with the number
   * of attempts made by then. When the callback does not throw that is at most one report,
   * and there is one exactly when the loop ends as recovered.
   */
  lemma {:induction false} ReportsAreExact(s: Settings, rounds: seq<Round>, retry: nat, last: Option<int>)
    ensures var run, n := Loop(s, rounds, retry, last), Made(rounds);
      && Pick(run.log, ReportedCount) == Bounds(rounds[..n], retry)
      && (run.outcome.Recovered? <==> n > 0 && rounds[n - 1].reply.Bound? && !rounds[n - 1].reply.callbackThrows)
      && ((forall r <- rounds :: r.reply.Bound? ==> !r.reply.callbackThrows) ==>
            Pick(run.log, ReportedCount) == if run.outcome.Recovered? then [retry + n] else [])
  {
    hide Loop, Delay, Pick, Next, Bounds;
    var n := Made(rounds);
    if rounds == [] || !GoesOn(rounds[0]) {
      PickEnd(s, rounds, retry, last, ReportedCount);
      OutcomeEnd(s, rounds, retry, last);
      BoundsNothing(retry + 1);
      if n > 0 {
        BoundsCons(rounds, n, retry);
        assert rounds[1..][..n - 1] == [];
      } else {
        BoundsNothing(retry);
        assert rounds[..n] == [];
      }
    } else {
      PickRound(s, rounds, retry, last, ReportedCount);
      ReportsAreExact(s, rounds[1..], retry + 1, Next(s, rounds[0], last));
      BoundsCons(rounds, n, retry);
      assert rounds[0] in rounds;
    }
  }

  lemma BoundsNothing(retry: nat)
    ensures Bounds([], retry) == []
  {
  }

  lemma BoundsCons(rounds: seq<Round>, n: nat, retry: nat)
    requires 1 <= n <= |rounds|
    ensures Bounds(rounds[..n], retry)
         == (if rounds[0].reply.Bound? then [retry + 1] else []) + Bounds(rounds[1..][..n - 1], retry + 1)
  {
    assert rounds[..n][0] == rounds[0] && rounds[..n][1..] == rounds[1..][..n - 1];
  }

  lemma OutcomeEnd(s: Settings, rounds: seq<Round>, retry: nat, last: Option<int>)
    requires rounds == [] || !GoesOn(rounds[0])
    ensures Loop(s, rounds, retry, last).outcome.Recovered? <==>
      rounds != [] && !rounds[0].stopBefore && !rounds[0].stopAfter
  {
  }

  // ---------------------------------------------------------------------------------------
  // Warnings
  // ---------------------------------------------------------------------------------------

  /** The clock does not run backwards: within a round, nor from one round to the next. */
  predicate Monotone(rounds: seq<Round>) {
    && (forall i | 0 <= i < |rounds| :: rounds[i].comparedAt <= rounds[i].stampedAt)
    && (forall i | 0 < i < |rounds| :: rounds[i - 1].stampedAt <= rounds[i].comparedAt)
  }

  /** Neighbours at least `gap` apart, and the first that far from `last`. */
  predicate Apart(times: seq<int>, gap: nat, last: Option<int>) {
    && (last.Some? && times != [] ==> times[0] - last.value >= gap)
    && (forall i | 0 < i < |times| :: times[i] - times[i - 1] >= gap)
  }

  /** Warnings are at least the beacon interval apart. */
  lemma {:induction false} WarningsAreApart(s: Settings, rounds: seq<Round>, retry: nat, last: Option<int>)
    requires Monotone(rounds)
    ensures Apart(Pick(Loop(s, rounds, retry, last).log, WarnedAt), s.beacon, last)
  {
    hide Loop, Delay, Pick;
    if rounds == [] || !GoesOn(rounds[0]) {
      PickEnd(s, rounds, retry, last, WarnedAt);
    } else {
      PickRound(s, rounds, retry, last, WarnedAt);
      WarningsAreApart(s, rounds[1..], retry + 1, Next(s, rounds[0], last));
    }
  }

  lemma {:induction false} FarApart(times: seq<int>, gap: nat, last: Option<int>, i: nat, j: nat)
    requires Apart(times, gap, last) && i <= j < |times|
    ensures times[j] - times[i] >= (j - i) * gap
  {
    if i < j {
      FarApart(times, gap, last, i, j - 1);
      assert (j - i) * gap == (j - 1 - i) * gap + gap;
    }
  }

  /** A window of length `span` holds at most `span / beacon + 1` warnings. */
  lemma WarningsInAWindow(s: Settings, rounds: seq<Round>, i: nat, j: nat, from: int, span: nat)
    requires Monotone(rounds) && s.beacon > 0
    requires i <= j < |Pick(Loop(s, rounds, 0, None).log, WarnedAt)|
    requires from <= Pick(Loop(s, rounds, 0, None).log, WarnedAt)[i]
    requires Pick(Loop(s, rounds, 0, None).log, WarnedAt)[j] <= from + span
    ensures j - i + 1 <= span / s.beacon + 1
  {
    var times := Pick(Loop(s, rounds, 0, None).log, WarnedAt);
    WarningsAreApart(s, rounds, 0, None);
    FarApart(times, s.beacon, None, i, j);
    Fits(j - i, s.beacon, span);
  }

  lemma Fits(n: nat, gap: nat, span: nat)
    requires gap > 0 && n * gap <= span
    ensures n <= span / gap
  {
    var q := span / gap;
    assert span < gap * (q + 1);
    if n >= q + 1 {
      Scale(gap, q + 1, n);
      assert false;
    }
  }

  // ---------------------------------------------------------------------------------------
  // Silence and shutdown
  // ---------------------------------------------------------------------------------------

  /** A failure at `i` is followed at once by a warning, or one was stamped within the interval. */
  predicate Heard(log: seq<Event>, i: nat, beacon: nat, last: Option<int>)
    requires i < |log| && log[i].Failed?
  {
    || (last.Some? && log[i].at - last.value < beacon)
    || (i + 1 < |log| && log[i + 1].Warned?)
    || exists j: nat :: j < i && log[j].Warned? && log[i].at - log[j].at < beacon
  }

  lemma LapShape(s: Settings, r: Round, retry: nat, last: Option<int>)
    ensures var lap := Lapped(s, r, retry, last, []);
      var n := |lap|;
      && n >= 5
      && lap[0] == Looked(false) && lap[1].Slept? && lap[2] == Looked(false) && lap[3].Attempted?
      && (forall i | 4 <= i < n :: lap[i].Reported? || lap[i].Failed? || lap[i].Warned?)
      && (Due(s, last, r.comparedAt) ==> lap[n - 1] == Warned(retry + 1, r.stampedAt))
      && (forall i | 0 <= i < n && lap[i].Failed? ::
            lap[i].at == r.comparedAt && (Due(s, last, r.comparedAt) ==> i == n - 2))
  {
    hide Delay, Due;
  }

  /** How the log of a loop that does not go on looks. */
  lemma EndShape(s: Settings, rounds: seq<Round>, retry: nat, last: Option<int>)
    requires rounds == [] || !GoesOn(rounds[0])
    ensures Loop(s, rounds, retry, last) ==
      if rounds == [] then Run([], Going)
      else if rounds[0].stopBefore then Run([Looked(true)], Shutdown)
      else if rounds[0].stopAfter then Run([Looked(false), Slept(Delay(s, retry)), Looked(true)], Shutdown)
      else
        Run([Looked(false), Slept(Delay(s, retry)), Looked(false), Attempted(retry + 1), Reported(retry + 1)],
            Recovered)
  {
    hide Delay;
  }

  lemma LapHeard(s: Settings, r: Round, retry: nat, last: Option<int>, rest: seq<Event>, i: nat)
    requires i < |Lapped(s, r, retry, last, [])| && Lapped(s, r, retry, last, [])[i].Failed?
    ensures (Lapped(s, r, retry, last, []) + rest)[i].Failed?
    ensures Heard(Lapped(s, r, retry, last, []) + rest, i, s.beacon, last)
  {
    LapShape(s, r, retry, last);
    hide Lapped;
    var lap := Lapped(s, r, retry, last, []);
    if Due(s, last, r.comparedAt) {
      assert (lap + rest)[i + 1] == lap[i + 1];
    }
  }

  /** No failure goes unheard: it is warned of at once, or a warning is younger than the beacon. */
  lemma {:induction false} NoFailureGoesUnheard(s: Settings, rounds: seq<Round>, retry: nat, last: Option<int>, i: nat)
    requires i < |Loop(s, rounds, retry, last).log| && Loop(s, rounds, retry, last).log[i].Failed?
    ensures Heard(Loop(s, rounds, retry, last).log, i, s.beacon, last)
    decreases |rounds|
  {
    hide Loop, Lapped, Heard, Delay, Next, Due;
    if rounds == [] || !GoesOn(rounds[0]) {
      EndShape(s, rounds, retry, last);
    } else {
      LoopGoesOn(s, rounds, retry, last, []);
      var log, lap := Loop(s, rounds, retry, last).log, Lapped(s, rounds[0], retry, last, []);
      var rest, next := Rest(s, rounds, retry, last).log, Next(s, rounds[0], last);
      assert [] + log == log;
      if i < |lap| {
        LapHeard(s, rounds[0], retry, last, rest, i);
      } else {
        NoFailureGoesUnheard(s, rounds[1..], retry + 1, next, i - |lap|);
        LapEndsInWarning(s, rounds[0], retry, last);
        HeardLater(lap, rest, i - |lap|, s.beacon, last, next);
      }
    }
  }

  lemma LapEndsInWarning(s: Settings, r: Round, retry: nat, last: Option<int>)
    ensures var lap := Lapped(s, r, retry, last, []);
      Next(s, r, last) == last || (lap != [] && lap[|lap| - 1].Warned? && Next(s, r, last) == Some(lap[|lap| - 1].at))
  {
    LapShape(s, r, retry, last);
    hide Lapped;
  }

  lemma HeardLater(lap: seq<Event>, rest: seq<Event>, i: nat, beacon: nat, last: Option<int>, next: Option<int>)
    requires i < |rest| && rest[i].Failed? && Heard(rest, i, beacon, next)
    requires next == last || (lap != [] && lap[|lap| - 1].Warned? && next == Some(lap[|lap| - 1].at))
    ensures Heard(lap + rest, |lap| + i, beacon, last)
  {
    var log := lap + rest;
    if j: nat :| j < i && rest[j].Warned? && rest[i].at - rest[j].at < beacon {
      assert log[|lap| + j] == rest[j];
    }
    if lap != [] {
      assert log[|lap| - 1] == lap[|lap| - 1];
    }
  }

  /** An attempt comes right after a look that saw no shutdown, which comes after a sleep. */
  predicate Cleared(log: seq<Event>, i: nat) {
    3 <= i < |log| && log[i - 1] == Looked(false) && log[i - 2].Slept? && log[i - 3] == Looked(false)
  }

  predicate Obedient(run: Run) {
    && (forall i: nat | i < |run.log| && run.log[i] == Looked(true) :: i == |run.log| - 1)
    && (run.outcome.Shutdown? <==> run.log != [] && run.log[|run.log| - 1] == Looked(true))
    && (forall i: nat | i < |run.log| && run.log[i].Attempted? :: Cleared(run.log, i))
  }

  /**
   * A shutdown that is observed is the last thing that happens, and is what the loop reports;
   * no attempt is made without having looked before and after the sleep.
   */
  lemma {:induction false} ShutdownIsFinal(s: Settings, rounds: seq<Round>, retry: nat, last: Option<int>)
    ensures Obedient(Loop(s, rounds, retry, last))
    decreases |rounds|
  {
    hide Loop, Lapped, Delay, Due;
    if rounds == [] || !GoesOn(rounds[0]) {
      EndShape(s, rounds, retry, last);
    } else {
      hide Obedient;
      ShutdownIsFinal(s, rounds[1..], retry + 1, Next(s, rounds[0], last));
      LoopGoesOn(s, rounds, retry, last, []);
      LapShape(s, rounds[0], retry, last);
      var run := Loop(s, rounds, retry, last);
      assert [] + run.log == run.log;
      ObedientLater(Lapped(s, rounds[0], retry, last, []), Rest(s, rounds, retry, last), run);
    }
  }

  lemma ObedientLater(lap: seq<Event>, rest: Run, run: Run)
    requires run.log == lap + rest.log && run.outcome == rest.outcome && Obedient(rest)
    requires |lap| >= 5 && lap[0] == Looked(false) && lap[1].Slept? && lap[2] == Looked(false) && lap[3].Attempted?
    requires forall i | 4 <= i < |lap| :: lap[i].Reported? || lap[i].Failed? || lap[i].Warned?
    ensures Obedient(run)
  {
    forall i: nat | i < |run.log| && run.log[i].Attempted? ensures Cleared(run.log, i) {
      if i >= |lap| {
        assert Cleared(rest.log, i - |lap|);
      }
    }
    assert forall i: nat | |lap| <= i < |run.log| :: run.log[i] == rest.log[i - |lap|];
  }

  /** Two reports: the first callback throws after the port was bound, and the loop binds it again. */
  lemma ThrowingCallbackReportsTwice(s: Settings, r: Round, rest: seq<Round>)
    requires !r.stopBefore && !r.stopAfter
    ensures var rounds := [r.(reply := Bound(true)), r.(reply := Bound(false))] + rest;
      Pick(Loop(s, rounds, 0, None).log, ReportedCount) == [1, 2]
  {
    hide Loop, Pick;
    var rounds := [r.(reply := Bound(true)), r.(reply := Bound(false))] + rest;
    ReportsAreExact(s, rounds, 0, None);
    TwoBounds(rounds);
  }

  lemma TwoBounds(rounds: seq<Round>)
    requires |rounds| >= 2 && GoesOn(rounds[0]) && rounds[0].reply.Bound?
    requires !rounds[1].stopBefore && !rounds[1].stopAfter && rounds[1].reply == Bound(false)
    ensures Made(rounds) == 2 && Bounds(rounds[..2], 0) == [1, 2]
  {
    assert Made(rounds[1..]) == 1;
    var two := rounds[..2];
    assert two[1..][1..] == [];
    assert Bounds(two[1..], 1) == [2] + Bounds(two[1..][1..], 2);
  }

  // ---------------------------------------------------------------------------------------
  // The degraded state, the failures and the delays
  // ---------------------------------------------------------------------------------------

  /** The degraded state is advertised once, before everything else. */
  lemma DegradedOnceAtFirst(s: Settings, rounds: seq<Round>)
    ensures var log := Whole(s, rounds).log;
      log != [] && log[0] == Degraded && log[1..] == Loop(s, rounds, 0, None).log
      && forall i: nat | 0 < i < |log| :: !log[i].Degraded?
    ensures Whole(s, rounds).outcome == Loop(s, rounds, 0, None).outcome
  {
    NeverDegraded(s, rounds, 0, None);
  }

  lemma {:induction false} NeverDegraded(s: Settings, rounds: seq<Round>, retry: nat, last: Option<int>)
    ensures forall e <- Loop(s, rounds, retry, last).log :: !e.Degraded?
    decreases |rounds|
  {
    hide Loop, Delay, Due, Lapped;
    var log := Loop(s, rounds, retry, last).log;
    if rounds == [] || !GoesOn(rounds[0]) {
      EndIsPlain(s, rounds, retry, last);
    } else {
      NeverDegraded(s, rounds[1..], retry + 1, Next(s, rounds[0], last));
      LoopGoesOn(s, rounds, retry, last, []);
      LapIsPlain(s, rounds[0], retry, last);
      assert [] + log == log;
    }
  }

  lemma LapIsPlain(s: Settings, r: Round, retry: nat, last: Option<int>)
    ensures forall e <- Lapped(s, r, retry, last, []) :: !e.Degraded?
  {
    hide Delay, Due;
  }

  lemma EndIsPlain(s: Settings, rounds: seq<Round>, retry: nat, last: Option<int>)
    requires rounds == [] || !GoesOn(rounds[0])
    ensures forall e <- Loop(s, rounds, retry, last).log :: !e.Degraded?
  {
    hide Delay, Due, Failure;
  }

  function FailedAttempt(e: Event): Option<int> {
    if e.Failed? then Some(e.count) else None
  }

  /** How many of the attempts made fail: all but a last one that recovers. */
  function Failing(rounds: seq<Round>): nat {
    if rounds == [] || !GoesOn(rounds[0]) then 0 else 1 + Failing(rounds[1..])
  }

  /** Every attempt that does not recover is noted as failed, with its number. */
  lemma {:induction false} FailuresAreNoted(s: Settings, rounds: seq<Round>, retry: nat, last: Option<int>)
    ensures Pick(Loop(s, rounds, retry, last).log, FailedAttempt) == Counted(retry + 1, Failing(rounds))
    ensures Failing(rounds) ==
      if Loop(s, rounds, retry, last).outcome.Recovered? then Made(rounds) - 1 else Made(rounds)
  {
    hide Loop, Delay, Pick, Next;
    if rounds == [] || !GoesOn(rounds[0]) {
      PickEnd(s, rounds, retry, last, FailedAttempt);
      OutcomeEnd(s, rounds, retry, last);
    } else {
      PickRound(s, rounds, retry, last, FailedAttempt);
      FailuresAreNoted(s, rounds[1..], retry + 1, Next(s, rounds[0], last));
      assert Counted(retry + 1, Failing(rounds)) == [retry + 1] + Counted(retry + 2, Failing(rounds) - 1);
    }
  }

  /** The first delay is the base, each further one twice the last, up to the cap. */
  lemma DelaysDouble(s: Settings, n: nat)
    requires n < 31
    ensures Delay(s, 0) == if s.base <= s.cap then s.base else s.cap
    ensures Delay(s, n + 1) == if 2 * Delay(s, n) <= s.cap then 2 * Delay(s, n) else s.cap
  {
    assert s.base * Pow2(n + 1) == 2 * (s.base * Pow2(n));
  }

  /** By default that is a second, then two, up to half a minute, and a warning every five minutes at most. */
  lemma DefaultsAre()
    ensures DEFAULTS.base == 1_000 && DEFAULTS.cap == 30_000 && DEFAULTS.beacon == 300_000
    ensures Delay(DEFAULTS, 0) == 1_000 && forall n | n >= 5 :: Delay(DEFAULTS, n) == 30_000
  {
    forall n | n >= 5 ensures Delay(DEFAULTS, n) == 30_000 {
      DefaultCapReached(n);
    }
  }
}
