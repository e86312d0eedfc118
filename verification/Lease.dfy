/** How many heartbeats in a row may fail before the lease lapses.

  The workflow renews `expiresAt` by `leaseMs` on every heartbeat it accepts, and the adapter
  claims three heartbeat intervals (`src/types.ts:137-144`, `src/adapters/base.ts:482`). The
  adapter's timetable runs from the reply to the last accepted heartbeat; the lease may already
  have been renewed when that heartbeat was sent, one reply earlier, so that is where its three
  intervals are counted from.  A reclaim renews the lease too, and there the timetable pauses for
  the subclass's `onReconnected` before it begins (`src/adapters/base.ts:1258-1288`).
 */
module Lease {
  import opened Options
  import opened Lifecycle

  /** `heartbeatBackoff` after `k` failures in a row. */
  function BackoffAfter(c: Config, k: nat): real {
    if k == 0 then 0.0 else NextTickBackoff(BackoffAfter(c, k - 1), c.heartbeatMs)
  }

  /** When the next heartbeat goes out after `k` failures in a row whose RPCs took `latencies[..k]`. */
  function SentAt(c: Config, latencies: seq<real>, k: nat): real
    requires k <= |latencies|
  {
    if k == 0 then TickDelay(c, Heartbeat, 0.0)
    else SentAt(c, latencies, k - 1) + latencies[k - 1] + TickDelay(c, Heartbeat, BackoffAfter(c, k))
  }

  ghost predicate Latencies(latencies: seq<real>, k: nat, bound: real) {
    |latencies| == k + 1 && forall i | 0 <= i <= k :: 0.0 <= latencies[i] <= bound
  }

  /**
   * The heartbeat that follows `k` failures lands before the lease expires, when the reply that
   * renewed it took `reply` and the timetable began `pause` later.
   */
  ghost predicate Survives(c: Config, reply: real, pause: real, latencies: seq<real>, k: nat)
    requires |latencies| == k + 1
  {
    reply + pause + SentAt(c, latencies, k) + latencies[k] < 3.0 * c.heartbeatMs
  }

  /** It does whatever each RPC takes, up to `bound`, and however long the pause, up to `longest`. */
  ghost predicate AlwaysSurvives(c: Config, k: nat, bound: real, longest: real) {
    forall reply: real, pause: real, latencies
      | 0.0 <= reply <= bound && 0.0 <= pause <= longest && Latencies(latencies, k, bound) ::
      Survives(c, reply, pause, latencies, k)
  }

  // ----- the lifecycle keeps this timetable

  /** After an accepted heartbeat the next one is due `heartbeatMs` later, with the backoff forgotten. */
  lemma AcceptanceRearms(s: State, id: nat)
    requires Enabled(s, HeartbeatAccepted(id)) && !s.stopped && !s.reconnecting && !s.terminalFired
    ensures var t := Step(s, HeartbeatAccepted(id)).st;
            && t.hb.backoff == BackoffAfter(s.config, 0) && t.hb.field == Some(s.nextId)
            && t.hb.armed[s.nextId] == s.now + TickDelay(s.config, Heartbeat, 0.0)
  {
  }

  /** After the `k+1`-st failure in a row it is due one backoff later. */
  lemma FailureRearms(s: State, id: nat, k: nat)
    requires Enabled(s, TickReturns(Heartbeat, id)) && !s.hb.ticks[id].handled
    requires !s.stopped && !s.reconnecting && !s.terminalFired
    requires s.hb.backoff == BackoffAfter(s.config, k)
    ensures var t := Step(s, TickReturns(Heartbeat, id)).st;
            && t.hb.backoff == BackoffAfter(s.config, k + 1) && t.hb.field == Some(s.nextId)
            && t.hb.armed[s.nextId] == s.now + TickDelay(s.config, Heartbeat, BackoffAfter(s.config, k + 1))
  {
  }

  // ----- the backoff ramp

  lemma {:induction false} SlowCadence(c: Config, k: nat)
    requires c.Valid() && LOOP_BACKOFF_MAX_MS <= c.heartbeatMs && 1 <= k
    ensures BackoffAfter(c, k) == LOOP_BACKOFF_MAX_MS
  {
    if k > 1 { SlowCadence(c, k - 1); }
  }

  lemma {:induction false} BackoffPositive(c: Config, k: nat)
    requires c.Valid() && 1 <= k
    ensures 0.0 < BackoffAfter(c, k) <= LOOP_BACKOFF_MAX_MS
  {
    if k > 1 { BackoffPositive(c, k - 1); }
  }

  /** One and a half to the power of `n`. */
  function Power(n: nat): (p: real)
    ensures p >= 1.0
  {
    if n == 0 then 1.0 else 1.5 * Power(n - 1)
  }

  /** The backoff starts at the cadence and grows by half, up to thirty seconds. */
  lemma {:induction false} RampIsGeometric(c: Config, k: nat)
    requires c.Valid() && 1 <= k
    ensures BackoffAfter(c, k) == if c.heartbeatMs * Power(k - 1) <= 30000.0 then c.heartbeatMs * Power(k - 1)
      else 30000.0
  {
    if k == 1 {
      assert Power(0) == 1.0 && BackoffAfter(c, 0) == 0.0;
    } else {
      RampIsGeometric(c, k - 1);
      BackoffPositive(c, k - 1);
      var p := c.heartbeatMs * Power(k - 2);
      assert c.heartbeatMs * Power(k - 1) == 1.5 * p;
    }
  }

  /** With every RPC as slow as the bound allows, the timetable is the latest possible. */
  lemma {:induction false} SlowestIsLatest(c: Config, latencies: seq<real>, k: nat, n: nat, bound: real)
    requires Latencies(latencies, n, bound) && k <= n && 0.0 <= bound
    ensures SentAt(c, latencies, k) <= SentAt(c, seq(n + 1, _ => bound), k)
    ensures SentAt(c, seq(n + 1, _ => bound), k) == SentAt(c, seq(n + 1, _ => 0.0), k) + bound * k as real
  {
    if k > 0 {
      SlowestIsLatest(c, latencies, k - 1, n, bound);
      assert bound * k as real == bound * (k - 1) as real + bound;
    }
  }

  /** The exact condition under any latencies and pauses up to a bound: `k` failures always leave time for the next
    heartbeat if and only if they do with the longest pause and every RPC as slow as allowed, the renewing one and the
    next one included.
   */
  lemma SurvivesAnyLatency(c: Config, k: nat, bound: real, longest: real)
    requires c.Valid() && 0.0 <= bound && 0.0 <= longest
    ensures AlwaysSurvives(c, k, bound, longest)
       <==> SentAt(c, seq(k + 1, _ => 0.0), k) + bound * (k + 2) as real + longest < 3.0 * c.heartbeatMs
  {
    var worst := seq(k + 1, _ => bound);
    assert Latencies(worst, k, bound);
    SlowestIsLatest(c, worst, k, k, bound);
    assert bound * (k + 2) as real == bound * k as real + bound + bound;
    forall latencies | Latencies(latencies, k, bound)
      ensures SentAt(c, latencies, k) + latencies[k] <= SentAt(c, worst, k) + bound
    {
      SlowestIsLatest(c, latencies, k, k, bound);
    }
    assert AlwaysSurvives(c, k, bound, longest) ==> Survives(c, bound, longest, worst, k);
  }

  /** With a cadence of at least the cap that is 30000 k + bound (k + 2) + pause < 2 cadences. */
  lemma SlowCadenceSurvives(c: Config, k: nat, bound: real, longest: real)
    requires c.Valid() && 0.0 <= bound && 0.0 <= longest && 30000.0 <= c.heartbeatMs
    ensures AlwaysSurvives(c, k, bound, longest)
       <==> 30000.0 * k as real + bound * (k + 2) as real + longest < 2.0 * c.heartbeatMs
  {
    SurvivesAnyLatency(c, k, bound, longest);
    SlowTimetable(c, k, k);
  }

  lemma {:induction false} SlowTimetable(c: Config, k: nat, n: nat)
    requires c.Valid() && LOOP_BACKOFF_MAX_MS <= c.heartbeatMs && k <= n
    ensures SentAt(c, seq(n + 1, _ => 0.0), k) == c.heartbeatMs + LOOP_BACKOFF_MAX_MS * k as real
  {
    if k > 0 {
      SlowTimetable(c, k - 1, n);
      SlowCadence(c, k);
    }
  }

  lemma {:induction false} LaterAndLater(c: Config, k: nat, m: nat, n: nat)
    requires c.Valid() && k <= m <= n
    ensures SentAt(c, seq(n + 1, _ => 0.0), k) <= SentAt(c, seq(n + 1, _ => 0.0), m)
  {
    if k < m {
      LaterAndLater(c, k, m - 1, n);
      BackoffPositive(c, m);
    }
  }

  /** With instant RPCs, for every cadence: one failed heartbeat never lets the lease lapse, and more than one in a row
    do exactly when their capped backoffs use up the other two intervals.
   */
  lemma FailuresSurvived(c: Config, k: nat)
    requires c.Valid()
    ensures Survives(c, 0.0, 0.0, seq(k + 1, _ => 0.0), k) <==>
      k <= 1 || 30000.0 * k as real < 2.0 * c.heartbeatMs
  {
    var zero := seq(k + 1, _ => 0.0);
    if LOOP_BACKOFF_MAX_MS <= c.heartbeatMs {
      SlowTimetable(c, k, k);
    } else if k <= 1 {
      assert SentAt(c, zero, 0) == c.heartbeatMs;
      assert BackoffAfter(c, 1) == c.heartbeatMs;
      if k == 1 { assert SentAt(c, zero, 1) == 2.0 * c.heartbeatMs; }
    } else {
      LaterAndLater(c, 2, k, k);
      FastCadence(c, k);
      assert LOOP_BACKOFF_MAX_MS * k as real >= LOOP_BACKOFF_MAX_MS * 2.0;
    }
  }

  lemma FastCadence(c: Config, n: nat)
    requires c.Valid() && c.heartbeatMs < LOOP_BACKOFF_MAX_MS && 2 <= n
    ensures SentAt(c, seq(n + 1, _ => 0.0), 2) >= 3.0 * c.heartbeatMs
  {
    var zero := seq(n + 1, _ => 0.0);
    assert BackoffAfter(c, 1) == c.heartbeatMs;
    assert BackoffAfter(c, 2) >= c.heartbeatMs;
    assert SentAt(c, zero, 0) == c.heartbeatMs;
    assert SentAt(c, zero, 1) == 2.0 * c.heartbeatMs;
  }
}
