/**
 * What one attempt of the restart comes to, read off the replies: when it succeeds, when it is
 * worth a retry, and everything it sends. Nothing here speaks of how the attempt goes about it.
 */
module RestartOutcomes {
  import opened Options
  import opened Restart

  /** The calls of an attempt that may throw and so end it. Asking the holder to detach may fail and does not count. */
  datatype Call =
    | Resolve | Look | LookAgain | Detach | GetMetadata | ClaimLease | GetState | Restore
    | GetPart | GetMessages | Replay | Write | Enqueue

  /** What a call threw, if it threw: true for an error worth a retry. */
  function ThrownBy<T>(r: Reply<T>): Option<bool> {
    match r
    case Ok(_) => None
    case Threw(transient) => Some(transient)
  }

  function Thrown(r: Replies, c: Call): Option<bool> {
    match c
    case Resolve => ThrownBy(r.resolve)
    case Look => ThrownBy(r.look)
    case LookAgain => ThrownBy(r.lookAgain)
    case Detach => ThrownBy(r.detach)
    case GetMetadata => ThrownBy(r.metadata)
    case ClaimLease => ThrownBy(r.claim)
    case GetState => ThrownBy(r.state)
    case Restore => ThrownBy(r.restore)
    case GetPart => ThrownBy(r.part)
    case GetMessages => ThrownBy(r.messages)
    case Replay => ThrownBy(r.replay)
    case Write => ThrownBy(r.write)
    case Enqueue => ThrownBy(r.spawn)
  }

  /** The session was found and its first look answered. */
  predicate Seen(r: Replies) {
    r.resolve == Ok(true) && r.look.Ok?
  }

  /** Somebody holds the session at the first look. */
  predicate Held(r: Replies) {
    Seen(r) && r.look.value.phase in {Attached, Processing, Awaiting, Draining}
  }

  /** And still does at the second. */
  predicate StillHeld(r: Replies) {
    Held(r) && r.lookAgain.Ok? && r.lookAgain.value.phase !in {Detached, Booting}
  }

  /** Nobody stands in the way of the claim: nobody held the session, or let go of it, or was forced off. */
  predicate Clear(input: Input, r: Replies) {
    || (Seen(r) && r.look.value.phase in {Detached, Booting})
    || (Held(r) && r.lookAgain.Ok? && r.lookAgain.value.phase in {Detached, Booting})
    || (StillHeld(r) && input.force && r.detach.Ok?)
  }

  predicate Claimed(input: Input, r: Replies) {
    Clear(input, r) && r.metadata.Ok? && r.claim.Ok?
  }

  /** The state slot was read and, if it held anything, sent to the new session. */
  predicate StateDealtWith(input: Input, r: Replies) {
    input.loadFromState.None? || (r.state.Ok? && (r.state.value.None? || r.restore.Ok?))
  }

  /** The transcript is sent unless the start is fresh, or saved state stands in for it. */
  predicate TranscriptWanted(input: Input, r: Replies) {
    !input.startFresh &&
    (input.loadFromState.None? || input.stackTranscript || (r.state.Ok? && r.state.value.None?))
  }

  predicate Seeding(input: Input, r: Replies) {
    Claimed(input, r) && StateDealtWith(input, r)
  }

  predicate Seeded(input: Input, r: Replies) {
    Seeding(input, r) && (TranscriptWanted(input, r) ==> r.part.Ok? && r.messages.Ok? && r.replay.Ok?)
  }

  /** The call is made: what came before it went well and asks for it. */
  predicate IsMade(input: Input, r: Replies, c: Call) {
    match c
    case Resolve => true
    case Look => r.resolve == Ok(true)
    case LookAgain => Held(r)
    case Detach => StillHeld(r) && input.force
    case GetMetadata => Clear(input, r)
    case ClaimLease => Clear(input, r) && r.metadata.Ok?
    case GetState => Claimed(input, r) && input.loadFromState.Some?
    case Restore => Claimed(input, r) && input.loadFromState.Some? && r.state.Ok? && r.state.value.Some?
    case GetPart => Seeding(input, r) && TranscriptWanted(input, r)
    case GetMessages => Seeding(input, r) && TranscriptWanted(input, r) && r.part.Ok?
    case Replay => Seeding(input, r) && TranscriptWanted(input, r) && r.part.Ok? && r.messages.Ok?
    case Write => Seeded(input, r)
    case Enqueue => Seeded(input, r) && r.write.Ok?
  }

  /** The activity will not go on: no session, one that is gone, or one held against a restart without force. */
  predicate Refused(input: Input, r: Replies) {
    || r.resolve == Ok(false)
    || (Seen(r) && r.look.value.phase == Gone)
    || (StillHeld(r) && !input.force)
  }

  ghost predicate Fails(input: Input, r: Replies, transient: bool) {
    exists c: Call :: IsMade(input, r, c) && Thrown(r, c) == Some(transient)
  }

  // ---------------------------------------------------------------------------------------
  // How an attempt ends
  // ---------------------------------------------------------------------------------------

  ghost predicate Ends(input: Input, r: Replies, o: Outcome) {
    && (o.Done? <==> Seeded(input, r) && r.write.Ok? && r.spawn.Ok?)
    && (o.Retry? <==> Fails(input, r, true))
    && (o.Permanent? <==> Fails(input, r, false) || Refused(input, r))
  }

  /** A call that is made and throws ends the attempt; at most one does. */
  lemma ThrowEnds(input: Input, r: Replies, c: Call, transient: bool)
    requires IsMade(input, r, c) && Thrown(r, c) == Some(transient)
    ensures Ends(input, r, if transient then Outcome.Retry else Permanent)
  {
    assert !Seeded(input, r) || r.write.Threw? || r.spawn.Threw?;
    forall d: Call | IsMade(input, r, d) && Thrown(r, d).Some? ensures d == c {
      OneThrows(input, r, c, d);
    }
    assert !Refused(input, r);
  }

  lemma OneThrows(input: Input, r: Replies, c: Call, d: Call)
    requires IsMade(input, r, c) && Thrown(r, c).Some? && IsMade(input, r, d) && Thrown(r, d).Some?
    ensures c == d
  {
  }

  lemma RefusalEnds(input: Input, r: Replies)
    requires Refused(input, r)
    ensures Ends(input, r, Permanent)
  {
    forall d: Call | IsMade(input, r, d) ensures Thrown(r, d).None? {
    }
  }

  lemma SuccessEnds(input: Input, r: Replies)
    requires Seeded(input, r) && r.write.Ok? && r.spawn.Ok?
    ensures Ends(input, r, Done)
  {
    forall d: Call | IsMade(input, r, d) ensures Thrown(r, d).None? {
    }
  }

  lemma LaunchEnds(input: Input, r: Replies, m: Metadata, host: string, token: Token, log: seq<Event>)
    requires Seeded(input, r)
    ensures Ends(input, r, Launch(r, m, host, token, log).outcome)
  {
    hide Ends;
    if r.write.Threw? {
      ThrowEnds(input, r, Write, r.write.transient);
    } else if r.spawn.Threw? {
      ThrowEnds(input, r, Enqueue, r.spawn.transient);
    } else {
      SuccessEnds(input, r);
    }
  }

  lemma CatchupEnds(input: Input, r: Replies, m: Metadata, host: string, token: Token, wanted: bool, log: seq<Event>)
    requires Seeding(input, r) && (TranscriptWanted(input, r) <==> !input.startFresh && wanted)
    ensures Ends(input, r, Catchup(input, r, m, host, token, wanted, log).outcome)
  {
    hide Ends, Launch;
    if input.startFresh || !wanted {
      LaunchEnds(input, r, m, host, token, log);
    } else if r.part.Threw? {
      ThrowEnds(input, r, GetPart, r.part.transient);
    } else if r.messages.Threw? {
      ThrowEnds(input, r, GetMessages, r.messages.transient);
    } else if r.replay.Threw? {
      ThrowEnds(input, r, Replay, r.replay.transient);
    } else {
      var e := Replayed(input.invoker, r.part.value, Recent(r.messages.value, input.contextMessages), true);
      LaunchEnds(input, r, m, host, token, log + [e]);
    }
  }

  lemma SeedEnds(input: Input, r: Replies, m: Metadata, host: string, token: Token, log: seq<Event>)
    requires Claimed(input, r)
    ensures Ends(input, r, Seed(input, r, m, host, token, log).outcome)
  {
    hide Ends, Catchup;
    if input.loadFromState.None? {
      CatchupEnds(input, r, m, host, token, true, log);
    } else if r.state.Threw? {
      ThrowEnds(input, r, GetState, r.state.transient);
    } else {
      var key := KeyOf(input.loadFromState.value);
      var read := log + [ReadState(key, r.state.value)];
      if r.state.value.None? {
        CatchupEnds(input, r, m, host, token, true, read);
      } else if r.restore.Threw? {
        ThrowEnds(input, r, Restore, r.restore.transient);
      } else {
        CatchupEnds(input, r, m, host, token, input.stackTranscript,
                    read + [Restored(key, r.state.value.value, true)]);
      }
    }
  }

  lemma TakeOverEnds(input: Input, r: Replies, info: Info, log: seq<Event>)
    requires Clear(input, r)
    ensures Ends(input, r, TakeOver(input, r, info, log).outcome)
  {
    hide Ends, Seed;
    if r.metadata.Threw? {
      ThrowEnds(input, r, GetMetadata, r.metadata.transient);
    } else if r.claim.Threw? {
      ThrowEnds(input, r, ClaimLease, r.claim.transient);
    } else {
      var m := r.metadata.value;
      var host := HostOf(input, info, m);
      SeedEnds(input, r, m, host, r.claim.value,
               log + [ReadMetadata(m)] + [Claim(host, AdapterIdOf(m), AdapterClassOf(m), Some(r.claim.value))]);
    }
  }

  lemma ReapEnds(input: Input, r: Replies, info: Info, log: seq<Event>)
    requires Held(r)
    ensures Ends(input, r, Reap(input, r, info, log).outcome)
  {
    hide Ends, TakeOver;
    if r.lookAgain.Threw? {
      ThrowEnds(input, r, LookAgain, r.lookAgain.transient);
    } else {
      var again := r.lookAgain.value;
      var seen := log + [SecondLook(again)];
      if Free(again.phase) {
        TakeOverEnds(input, r, info, seen);
      } else if !input.force {
        RefusalEnds(input, r);
      } else if r.detach.Threw? {
        ThrowEnds(input, r, Detach, r.detach.transient);
      } else {
        TakeOverEnds(input, r, info, seen + [ForcedDetach(again.attachmentId, true)]);
      }
    }
  }

  /**
   * The replies decide: an attempt succeeds exactly when nobody stands in the way of its claim and
   * every call it makes is answered; it is worth a retry exactly when a call it makes throws a
   * transient error; and it fails for good exactly when one throws any other or it is refused.
   */
  lemma OutcomeIsExact(input: Input, r: Replies)
    ensures Ends(input, r, Deliver(input, r).outcome)
  {
    hide Ends, TakeOver, Reap;
    if r.resolve.Threw? {
      ThrowEnds(input, r, Resolve, r.resolve.transient);
    } else if !r.resolve.value {
      RefusalEnds(input, r);
    } else if r.look.Threw? {
      ThrowEnds(input, r, Look, r.look.transient);
    } else {
      var info := r.look.value;
      if info.phase.Gone? {
        RefusalEnds(input, r);
      } else if Free(info.phase) {
        TakeOverEnds(input, r, info, [FirstLook(info)]);
      } else {
        ReapEnds(input, r, info, [FirstLook(info)] + if Responsive(info.phase) then [AskedToDetach] else []);
      }
    }
  }

  // ---------------------------------------------------------------------------------------
  // What an attempt sends
  // ---------------------------------------------------------------------------------------

  /** The last `n` of the messages, all of them when there are no more or when `n` is zero. */
  predicate Latest(recent: seq<Message>, all: seq<Message>, n: int) {
    && |recent| <= |all| && recent == all[|all| - |recent|..]
    && (n == 0 || n >= |all| ==> recent == all)
    && (0 < n < |all| ==> |recent| == n)
    && (n < 0 ==> recent == if -n < |all| then all[-n..] else [])
  }

  /** The event belongs in the log of an attempt with these replies. */
  predicate Belongs(input: Input, r: Replies, e: Event) {
    match e
    case FirstLook(info) => Seen(r) && info == r.look.value
    case AskedToDetach => Seen(r) && r.look.value.phase in {Attached, Processing, Awaiting}
    case SecondLook(info) => Held(r) && r.lookAgain == Ok(info)
    case ForcedDetach(expected, done) =>
      IsMade(input, r, Detach) && expected == r.lookAgain.value.attachmentId && done == r.detach.Ok?
    case ReadMetadata(m) => Clear(input, r) && r.metadata == Ok(m)
    case Claim(host, id, class_, granted) =>
      && IsMade(input, r, ClaimLease)
      && Placed(input, r.look.value, r.metadata.value, host) && Routed(r.metadata.value, id, class_)
      && (r.claim.Ok? ==> granted == Some(r.claim.value)) && (r.claim.Threw? ==> granted == None)
    case ReadState(key, found) =>
      IsMade(input, r, GetState) && r.state == Ok(found) && Slotted(input.loadFromState.value, key)
    case Restored(key, entry, done) =>
      && IsMade(input, r, Restore) && r.state == Ok(Some(entry)) && Slotted(input.loadFromState.value, key)
      && done == r.restore.Ok?
    case Replayed(sender, part, recent, done) =>
      && IsMade(input, r, Replay) && sender == input.invoker && r.part == Ok(part) && done == r.replay.Ok?
      && Latest(recent, r.messages.value, input.contextMessages)
    case WroteSession(id, done) => Seeded(input, r) && id == r.uuid && done == r.write.Ok?
    case Spawn(spec, done) =>
      && IsMade(input, r, Enqueue) && done == r.spawn.Ok?
      && Placed(input, r.look.value, r.metadata.value, spec.host)
      && (Routed(r.metadata.value, spec.adapterId, Interactive) || Routed(r.metadata.value, spec.adapterId, Sdk))
      && spec.attachmentId == r.claim.value.attachmentId && spec.runId == r.claim.value.runId
      && !spec.resume && spec.sessionId == r.uuid && spec.model == r.metadata.value.model
      && (r.metadata.value.playerType.GetOr("") != "" ==> spec.definition == r.definition)
      && (r.metadata.value.playerType.GetOr("") == "" ==> spec.definition == None)
  }

  /** The slot asked for by name, or `main`. */
  predicate Slotted(slot: Slot, key: string) {
    slot == Named(key) || (slot == Default && key == "main")
  }

  /** Host and route are determined by what was asked and recorded. */
  lemma PlacedAndRoutedOnce(input: Input, seen: Info, m: Metadata, host: string, id: string, class_: AdapterClass)
    ensures Placed(input, seen, m, host) <==> host == HostOf(input, seen, m)
    ensures Routed(m, id, class_) <==> id == AdapterIdOf(m) && class_ == AdapterClassOf(m)
  {
  }

  lemma LatestIsRecent(recent: seq<Message>, all: seq<Message>, n: int)
    ensures Latest(recent, all, n) <==> recent == Recent(all, n)
  {
    if 0 < n < |all| && Latest(recent, all, n) {
      assert recent == all[|all| - n..];
    }
  }

  /** The place of an event in an attempt. */
  function Place(e: Event): nat {
    match e
    case FirstLook(_) => 1
    case AskedToDetach => 2
    case SecondLook(_) => 3
    case ForcedDetach(_, _) => 4
    case ReadMetadata(_) => 5
    case Claim(_, _, _, _) => 6
    case ReadState(_, _) => 7
    case Restored(_, _, _) => 8
    case Replayed(_, _, _, _) => 9
    case WroteSession(_, _) => 10
    case Spawn(_, _) => 11
  }

  const LAST := 11

  /** Up to place `k` the log holds exactly the events that belong there, once each and in order. */
  ghost predicate Exact(input: Input, r: Replies, log: seq<Event>, k: nat) {
    && (forall i, j | 0 <= i < j < |log| :: Place(log[i]) < Place(log[j]))
    && (forall e <- log :: Place(e) <= k)
    && (forall e: Event | Place(e) <= k :: e in log <==> Belongs(input, r, e))
  }

  /** Something belongs at place `p`. */
  predicate Used(input: Input, r: Replies, p: nat) {
    && (p == 1 ==> Seen(r))
    && (p == 2 ==> Seen(r) && r.look.value.phase in {Attached, Processing, Awaiting})
    && (p == 3 ==> Held(r) && r.lookAgain.Ok?)
    && (p == 4 ==> IsMade(input, r, Detach))
    && (p == 5 ==> Clear(input, r) && r.metadata.Ok?)
    && (p == 6 ==> IsMade(input, r, ClaimLease))
    && (p == 7 ==> IsMade(input, r, GetState) && r.state.Ok?)
    && (p == 8 ==> IsMade(input, r, Restore))
    && (p == 9 ==> IsMade(input, r, Replay))
    && (p == 10 ==> Seeded(input, r))
    && (p == 11 ==> IsMade(input, r, Enqueue))
  }

  predicate NothingBetween(input: Input, r: Replies, k: nat, n: nat) {
    forall p | k < p <= n :: !Used(input, r, p)
  }

  lemma BelongsIsUsed(input: Input, r: Replies, e: Event)
    ensures Belongs(input, r, e) ==> Used(input, r, Place(e))
  {
    hide Routed, Placed, Latest, Slotted;
  }

  lemma Skips(input: Input, r: Replies, log: seq<Event>, k: nat, n: nat)
    requires Exact(input, r, log, k) && k <= n && NothingBetween(input, r, k, n)
    ensures Exact(input, r, log, n)
  {
    hide Belongs, Used;
    forall e: Event | k < Place(e) <= n ensures !Belongs(input, r, e) {
      BelongsIsUsed(input, r, e);
    }
  }

  /** The only event that belongs at the place of `e` is `e`. */
  ghost predicate Only(input: Input, r: Replies, e: Event) {
    forall d: Event | Place(d) == Place(e) :: Belongs(input, r, d) <==> d == e
  }

  lemma Adds(input: Input, r: Replies, log: seq<Event>, k: nat, e: Event)
    requires Exact(input, r, log, k) && k < Place(e) && NothingBetween(input, r, k, Place(e) - 1) && Only(input, r, e)
    ensures Exact(input, r, log + [e], Place(e))
  {
    hide Belongs, Used;
    forall d: Event | Place(d) <= Place(e) ensures d in log + [e] <==> Belongs(input, r, d) {
      if Place(d) <= k {
        assert d in log <==> Belongs(input, r, d);
      } else if Place(d) == Place(e) {
        assert Belongs(input, r, d) <==> d == e;
        assert d !in log;
      } else {
        BelongsIsUsed(input, r, d);
        assert d !in log;
      }
    }
    forall i, j | 0 <= i < j < |log + [e]| ensures Place((log + [e])[i]) < Place((log + [e])[j]) {
      assert (log + [e])[i] in log;
    }
  }

  lemma PlainIsOnly(input: Input, r: Replies, e: Event)
    requires Belongs(input, r, e) && !e.Claim? && !e.Replayed? && !e.Spawn?
    ensures Only(input, r, e)
  {
    hide Routed, Placed, Latest;
  }

  lemma LaunchIsExact(input: Input, r: Replies, m: Metadata, host: string, token: Token, log: seq<Event>)
    requires Exact(input, r, log, 9) && Seeded(input, r)
    requires m == r.metadata.value && host == HostOf(input, r.look.value, m) && token == r.claim.value
    ensures Exact(input, r, Launch(r, m, host, token, log).log, LAST)
  {
    hide Exact, Only;
    PlainIsOnly(input, r, WroteSession(r.uuid, r.write.Ok?));
    Adds(input, r, log, 9, WroteSession(r.uuid, r.write.Ok?));
    if r.write.Threw? {
      Skips(input, r, log + [WroteSession(r.uuid, false)], 10, LAST);
    } else {
      var definition := if m.playerType.Some? && m.playerType.value != "" then r.definition else None;
      var spec := SpawnSpec(host, token.attachmentId, token.runId, false, r.uuid, AdapterIdOf(m), m.model, definition);
      SpawnIsOnly(input, r, spec);
      Adds(input, r, log + [WroteSession(r.uuid, true)], 10, Spawn(spec, r.spawn.Ok?));
    }
  }

  lemma SpawnIsOnly(input: Input, r: Replies, spec: SpawnSpec)
    requires Seeded(input, r) && r.write.Ok?
    requires var m, token := r.metadata.value, r.claim.value;
      spec == SpawnSpec(HostOf(input, r.look.value, m), token.attachmentId, token.runId, false, r.uuid, AdapterIdOf(m),
                        m.model, if m.playerType.Some? && m.playerType.value != "" then r.definition else None)
    ensures Only(input, r, Spawn(spec, r.spawn.Ok?))
  {
    hide Routed, Placed, HostOf, AdapterIdOf, AdapterClassOf;
    var m := r.metadata.value;
    forall d: Event | d.Spawn? ensures Belongs(input, r, d) <==> d == Spawn(spec, r.spawn.Ok?) {
      PlacedAndRoutedOnce(input, r.look.value, m, d.spec.host, d.spec.adapterId, Interactive);
      PlacedAndRoutedOnce(input, r.look.value, m, d.spec.host, d.spec.adapterId, Sdk);
      assert AdapterClassOf(m) == Interactive || AdapterClassOf(m) == Sdk;
    }
  }

  lemma CatchupIsExact(input: Input, r: Replies, m: Metadata, host: string, token: Token, wanted: bool,
                       log: seq<Event>)
    requires Exact(input, r, log, 8) && Seeding(input, r)
    requires TranscriptWanted(input, r) <==> !input.startFresh && wanted
    requires m == r.metadata.value && host == HostOf(input, r.look.value, m) && token == r.claim.value
    ensures Exact(input, r, Catchup(input, r, m, host, token, wanted, log).log, LAST)
  {
    hide Exact, Only, Launch;
    if input.startFresh || !wanted {
      Skips(input, r, log, 8, 9);
      LaunchIsExact(input, r, m, host, token, log);
    } else if r.part.Threw? || r.messages.Threw? {
      Skips(input, r, log, 8, LAST);
    } else {
      var e := Replayed(input.invoker, r.part.value, Recent(r.messages.value, input.contextMessages), r.replay.Ok?);
      ReplayIsOnly(input, r, e);
      Adds(input, r, log, 8, e);
      if r.replay.Threw? {
        Skips(input, r, log + [e], 9, LAST);
      } else {
        LaunchIsExact(input, r, m, host, token, log + [e]);
      }
    }
  }

  lemma ReplayIsOnly(input: Input, r: Replies, e: Event)
    requires IsMade(input, r, Replay)
    requires e == Replayed(input.invoker, r.part.value, Recent(r.messages.value, input.contextMessages), r.replay.Ok?)
    ensures Only(input, r, e)
  {
    hide Recent, Latest;
    forall d: Event | d.Replayed? ensures Belongs(input, r, d) <==> d == e {
      LatestIsRecent(d.recent, r.messages.value, input.contextMessages);
    }
  }

  lemma SeedIsExact(input: Input, r: Replies, m: Metadata, host: string, token: Token, log: seq<Event>)
    requires Exact(input, r, log, 6) && Claimed(input, r)
    requires m == r.metadata.value && host == HostOf(input, r.look.value, m) && token == r.claim.value
    ensures Exact(input, r, Seed(input, r, m, host, token, log).log, LAST)
  {
    hide Exact, Only, Catchup, HostOf;
    if input.loadFromState.None? {
      Skips(input, r, log, 6, 8);
      CatchupIsExact(input, r, m, host, token, true, log);
    } else if r.state.Threw? {
      Skips(input, r, log, 6, LAST);
    } else {
      var key, entry := KeyOf(input.loadFromState.value), r.state.value;
      var read := log + [ReadState(key, entry)];
      PlainIsOnly(input, r, ReadState(key, entry));
      Adds(input, r, log, 6, ReadState(key, entry));
      if entry.None? {
        Skips(input, r, read, 7, 8);
        CatchupIsExact(input, r, m, host, token, true, read);
      } else {
        var e := Restored(key, entry.value, r.restore.Ok?);
        PlainIsOnly(input, r, e);
        Adds(input, r, read, 7, e);
        if r.restore.Threw? {
          Skips(input, r, read + [e], 8, LAST);
        } else {
          CatchupIsExact(input, r, m, host, token, input.stackTranscript, read + [e]);
        }
      }
    }
  }

  lemma ClaimIsOnly(input: Input, r: Replies)
    requires IsMade(input, r, ClaimLease)
    ensures var m := r.metadata.value;
      Only(input, r, Claim(HostOf(input, r.look.value, m), AdapterIdOf(m), AdapterClassOf(m),
                           if r.claim.Ok? then Some(r.claim.value) else None))
  {
    hide Routed, Placed, HostOf, AdapterIdOf, AdapterClassOf;
    var m := r.metadata.value;
    var e := Claim(HostOf(input, r.look.value, m), AdapterIdOf(m), AdapterClassOf(m),
                   if r.claim.Ok? then Some(r.claim.value) else None);
    forall d: Event | d.Claim? ensures Belongs(input, r, d) <==> d == e {
      PlacedAndRoutedOnce(input, r.look.value, m, d.host, d.adapterId, d.adapterClass);
    }
  }

  lemma TakeOverIsExact(input: Input, r: Replies, log: seq<Event>)
    requires Exact(input, r, log, 4) && Clear(input, r)
    ensures Exact(input, r, TakeOver(input, r, r.look.value, log).log, LAST)
  {
    hide Exact, Only, Seed, HostOf, AdapterIdOf, AdapterClassOf;
    if r.metadata.Threw? {
      Skips(input, r, log, 4, LAST);
    } else {
      var m := r.metadata.value;
      var read := log + [ReadMetadata(m)];
      PlainIsOnly(input, r, ReadMetadata(m));
      Adds(input, r, log, 4, ReadMetadata(m));
      var host := HostOf(input, r.look.value, m);
      var e := Claim(host, AdapterIdOf(m), AdapterClassOf(m), if r.claim.Ok? then Some(r.claim.value) else None);
      ClaimIsOnly(input, r);
      Adds(input, r, read, 5, e);
      if r.claim.Threw? {
        Skips(input, r, read + [e], 6, LAST);
      } else {
        SeedIsExact(input, r, m, host, r.claim.value, read + [e]);
      }
    }
  }

  lemma ReapIsExact(input: Input, r: Replies, log: seq<Event>)
    requires Exact(input, r, log, 2) && Held(r)
    ensures Exact(input, r, Reap(input, r, r.look.value, log).log, LAST)
  {
    hide Exact, Only, TakeOver;
    if r.lookAgain.Threw? {
      Skips(input, r, log, 2, LAST);
    } else {
      var again := r.lookAgain.value;
      var seen := log + [SecondLook(again)];
      PlainIsOnly(input, r, SecondLook(again));
      Adds(input, r, log, 2, SecondLook(again));
      if Free(again.phase) {
        Skips(input, r, seen, 3, 4);
        TakeOverIsExact(input, r, seen);
      } else if !input.force {
        Skips(input, r, seen, 3, LAST);
      } else {
        var e := ForcedDetach(again.attachmentId, r.detach.Ok?);
        PlainIsOnly(input, r, e);
        Adds(input, r, seen, 3, e);
        if r.detach.Threw? {
          Skips(input, r, seen + [e], 4, LAST);
        } else {
          TakeOverIsExact(input, r, seen + [e]);
        }
      }
    }
  }

  lemma NothingYet(input: Input, r: Replies)
    ensures Exact(input, r, [], 0)
  {
  }

  /**
   * The replies also decide what is sent: the log of an attempt holds exactly the events that belong
   * to them, once each and in their order.
   */
  lemma LogIsExact(input: Input, r: Replies)
    ensures Exact(input, r, Deliver(input, r).log, LAST)
  {
    hide Exact, Only, TakeOver, Reap;
    NothingYet(input, r);
    if !Seen(r) {
      Skips(input, r, [], 0, LAST);
    } else {
      var info := r.look.value;
      PlainIsOnly(input, r, FirstLook(info));
      Adds(input, r, [], 0, FirstLook(info));
      var log := [FirstLook(info)];
      assert [] + log == log;
      if info.phase.Gone? {
        Skips(input, r, log, 1, LAST);
      } else if Free(info.phase) {
        Skips(input, r, log, 1, 4);
        TakeOverIsExact(input, r, log);
      } else if Responsive(info.phase) {
        PlainIsOnly(input, r, AskedToDetach);
        Adds(input, r, log, 1, AskedToDetach);
        ReapIsExact(input, r, log + [AskedToDetach]);
      } else {
        Skips(input, r, log, 1, 2);
        assert log + [] == log;
        ReapIsExact(input, r, log);
      }
    }
  }
}
