/**
 * The restart activity `deliverRestart` (src/activities/outbox.ts:1039-1272): what it asks of
 * the target's workflow, in which order, against every sequence of replies and any number of
 * activity retries.
 *
 * `Deliver` is one attempt, written as the log of what it saw and sent. `Allowed` is an
 * independent monitor: it judges each command by the log before it and knows nothing of the
 * algorithm.
 */
module Restart {
  import opened Options
  import opened Sequences

  datatype Phase = Booting | Attached | Processing | Awaiting | Draining | Detached | Gone

  datatype Info = Info(phase: Phase, attachmentId: Option<string>, preferredHost: Option<string>)

  datatype Metadata = Metadata(agentType: Option<string>, adapterId: Option<string>, hostname: string,
                               model: Option<string>, playerType: Option<string>)

  datatype Definition = Definition(name: string, path: string, nativeResolvable: bool)

  datatype Token = Token(attachmentId: string, runId: string)

  datatype Entry = Entry(savedAt: string, savedBy: string, content: string)

  datatype Message = Message(sender: string, text: string)

  datatype AdapterClass = Interactive | Sdk

  /** `loadFromState?: boolean | string`: a key, or either boolean for the default slot. */
  datatype Slot = Default | Named(key: string)

  datatype Input = Input(invoker: string, force: bool, host: Option<string>, startFresh: bool, contextMessages: int,
                         loadFromState: Option<Slot>, stackTranscript: bool)

  datatype SpawnSpec = SpawnSpec(host: string, attachmentId: string, runId: string, resume: bool, sessionId: string,
                                 adapterId: string, model: Option<string>, definition: Option<Definition>)

  /** What a call answered; a call that threw may or may not have had its effect. */
  datatype Reply<T> = Ok(value: T) | Threw(transient: bool)

  /** Everything one attempt may be told, and the identifier it draws. */
  datatype Replies = Replies(
    resolve: Reply<bool>, look: Reply<Info>, ask: Reply<()>, lookAgain: Reply<Info>, detach: Reply<()>,
    metadata: Reply<Metadata>, claim: Reply<Token>, state: Reply<Option<Entry>>, restore: Reply<()>,
    part: Reply<string>, messages: Reply<seq<Message>>, replay: Reply<()>, uuid: string, write: Reply<()>,
    definition: Option<Definition>, spawn: Reply<()>)

  /** What an attempt observed and sent, in order. `done` says that the call did not throw. */
  datatype Event =
    | FirstLook(info: Info)
    | AskedToDetach
    | SecondLook(info: Info)
    | ForcedDetach(expected: Option<string>, done: bool)
    | ReadMetadata(metadata: Metadata)
    | Claim(host: string, adapterId: string, adapterClass: AdapterClass, granted: Option<Token>)
    | ReadState(key: string, found: Option<Entry>)
    | Restored(key: string, entry: Entry, done: bool)
    | Replayed(sender: string, part: string, recent: seq<Message>, done: bool)
    | WroteSession(sessionId: string, done: bool)
    | Spawn(spec: SpawnSpec, done: bool)

  datatype Outcome = Done | Permanent | Retry

  datatype Attempt = Attempt(log: seq<Event>, outcome: Outcome)

  // ---------------------------------------------------------------------------------------
  // One attempt
  // ---------------------------------------------------------------------------------------

  predicate Free(p: Phase) {
    p.Detached? || p.Booting?
  }

  predicate Responsive(p: Phase) {
    p.Attached? || p.Awaiting? || p.Processing?
  }

  function Failed(transient: bool): Outcome {
    if transient then Retry else Permanent
  }

  const SDK_AGENTS := {"copilot", "mock", "claude-api", "opencode", "claude-code-headless"}

  /** Agents the activity does not know are restarted as interactive Claude. */
  function AgentOf(m: Metadata): string {
    if m.agentType.Some? && m.agentType.value in SDK_AGENTS then m.agentType.value else "claude"
  }

  function AdapterIdOf(m: Metadata): string {
    if m.adapterId.Some? && m.adapterId.value != "" then m.adapterId.value
    else if AgentOf(m) == "claude" then "claude-code"
    else AgentOf(m)
  }

  function AdapterClassOf(m: Metadata): AdapterClass {
    if AgentOf(m) == "claude" then Interactive else Sdk
  }

  function HostOf(input: Input, info: Info, m: Metadata): string {
    input.host.GetOr(info.preferredHost.GetOr(m.hostname))
  }

  function KeyOf(s: Slot): string {
    match s
    case Default => "main"
    case Named(key) => key
  }

  /** JavaScript's `messages.slice(-n)`: the latest `n` of them, but all of them for zero. */
  function Recent(messages: seq<Message>, n: int): (recent: seq<Message>)
    ensures |recent| <= |messages| && recent == messages[|messages| - |recent|..]
    ensures n > 0 ==> |recent| == if n < |messages| then n else |messages|
    ensures n == 0 ==> recent == messages
  {
    if n > 0 then (if n < |messages| then messages[|messages| - n..] else messages)
    else if -n < |messages| then messages[-n..] else []
  }

  function Deliver(input: Input, r: Replies): Attempt {
    match r.resolve
    case Threw(transient) => Attempt([], Failed(transient))
    case Ok(found) =>
      if !found then Attempt([], Permanent)
      else
        match r.look
        case Threw(transient) => Attempt([], Failed(transient))
        case Ok(info) =>
          if info.phase.Gone? then Attempt([FirstLook(info)], Permanent)
          else if Free(info.phase) then TakeOver(input, r, info, [FirstLook(info)])
          else Reap(input, r, info, [FirstLook(info)] + if Responsive(info.phase) then [AskedToDetach] else [])
  }

  function Reap(input: Input, r: Replies, info: Info, log: seq<Event>): Attempt {
    match r.lookAgain
    case Threw(transient) => Attempt(log, Failed(transient))
    case Ok(again) =>
      var seen := log + [SecondLook(again)];
      if Free(again.phase) then TakeOver(input, r, info, seen)
      else if !input.force then Attempt(seen, Permanent)
      else
        match r.detach
        case Threw(transient) => Attempt(seen + [ForcedDetach(again.attachmentId, false)], Failed(transient))
        case Ok(_) => TakeOver(input, r, info, seen + [ForcedDetach(again.attachmentId, true)])
  }

  function TakeOver(input: Input, r: Replies, info: Info, log: seq<Event>): Attempt {
    match r.metadata
    case Threw(transient) => Attempt(log, Failed(transient))
    case Ok(m) =>
      var read := log + [ReadMetadata(m)];
      var host, id, class_ := HostOf(input, info, m), AdapterIdOf(m), AdapterClassOf(m);
      match r.claim
      case Threw(transient) => Attempt(read + [Claim(host, id, class_, None)], Failed(transient))
      case Ok(token) => Seed(input, r, m, host, token, read + [Claim(host, id, class_, Some(token))])
  }

  function Seed(input: Input, r: Replies, m: Metadata, host: string, token: Token, log: seq<Event>): Attempt {
    if input.loadFromState.None? then
      Catchup(input, r, m, host, token, true, log)
    else
      var key := KeyOf(input.loadFromState.value);
      match r.state
      case Threw(transient) => Attempt(log, Failed(transient))
      case Ok(entry) =>
        var read := log + [ReadState(key, entry)];
        if entry.None? then Catchup(input, r, m, host, token, true, read)
        else
          match r.restore
          case Threw(transient) => Attempt(read + [Restored(key, entry.value, false)], Failed(transient))
          case Ok(_) =>
            Catchup(input, r, m, host, token, input.stackTranscript, read + [Restored(key, entry.value, true)])
  }

  function Catchup(input: Input, r: Replies, m: Metadata, host: string, token: Token, wanted: bool,
      log: seq<Event>): Attempt {
    if input.startFresh || !wanted then Launch(r, m, host, token, log)
    else
      match r.part
      case Threw(transient) => Attempt(log, Failed(transient))
      case Ok(part) =>
        match r.messages
        case Threw(transient) => Attempt(log, Failed(transient))
        case Ok(all) =>
          var recent := Recent(all, input.contextMessages);
          match r.replay
          case Threw(transient) => Attempt(log + [Replayed(input.invoker, part, recent, false)], Failed(transient))
          case Ok(_) => Launch(r, m, host, token, log + [Replayed(input.invoker, part, recent, true)])
  }

  function Launch(r: Replies, m: Metadata, host: string, token: Token, log: seq<Event>): Attempt {
    match r.write
    case Threw(transient) => Attempt(log + [WroteSession(r.uuid, false)], Failed(transient))
    case Ok(_) =>
      var definition := if m.playerType.Some? && m.playerType.value != "" then r.definition else None;
      var spec := SpawnSpec(host, token.attachmentId, token.runId, false, r.uuid, AdapterIdOf(m), m.model, definition);
      var written := log + [WroteSession(r.uuid, true)];
      match r.spawn
      case Threw(transient) => Attempt(written + [Spawn(spec, false)], Failed(transient))
      case Ok(_) => Attempt(written + [Spawn(spec, true)], Done)
  }

  // ---------------------------------------------------------------------------------------
  // The activity and its retries
  // ---------------------------------------------------------------------------------------

  /** One execution of the activity; `cut` is where a lost worker broke it off, if one did. */
  datatype Try = Try(replies: Replies, cut: Option<nat>)

  function LogOf(input: Input, t: Try): seq<Event> {
    var log := Deliver(input, t.replies).log;
    if t.cut.Some? && t.cut.value < |log| then log[..t.cut.value] else log
  }

  predicate TriedAgain(input: Input, t: Try) {
    t.cut.Some? || Deliver(input, t.replies).outcome.Retry?
  }

  /** Everything seen and sent until an attempt reports success or a permanent failure. */
  function Run(input: Input, tries: seq<Try>): seq<Event> {
    if tries == [] then []
    else LogOf(input, tries[0]) + if TriedAgain(input, tries[0]) then Run(input, tries[1..]) else []
  }

  // ---------------------------------------------------------------------------------------
  // The monitor
  // ---------------------------------------------------------------------------------------

  predicate IsLook(e: Event) {
    e.FirstLook? || e.SecondLook?
  }

  /** The last thing the attempt saw of the target. */
  function LastLook(log: seq<Event>): Option<Info> {
    if log == [] then None
    else if IsLook(log[|log| - 1]) then Some(log[|log| - 1].info)
    else LastLook(log[..|log| - 1])
  }

  /** A forced detach naming `expected` succeeded after the last look. */
  predicate DetachedSince(log: seq<Event>, expected: Option<string>) {
    log != [] && !IsLook(log[|log| - 1]) &&
    (log[|log| - 1] == ForcedDetach(expected, true) || DetachedSince(log[..|log| - 1], expected))
  }

  function FirstSeen(log: seq<Event>): Option<Info> {
    if log == [] then None
    else if log[|log| - 1].FirstLook? then Some(log[|log| - 1].info)
    else FirstSeen(log[..|log| - 1])
  }

  /** The attempt's metadata, claim and session id, each the last one in its log. */
  function LastMetadata(log: seq<Event>): Option<Metadata> {
    if log == [] || log[|log| - 1].FirstLook? then None
    else if log[|log| - 1].ReadMetadata? then Some(log[|log| - 1].metadata)
    else LastMetadata(log[..|log| - 1])
  }

  function LastClaim(log: seq<Event>): (e: Option<Event>)
    ensures e.Some? ==> e.value.Claim?
  {
    if log == [] || log[|log| - 1].FirstLook? then None
    else if log[|log| - 1].Claim? then Some(log[|log| - 1])
    else LastClaim(log[..|log| - 1])
  }

  function LastWrite(log: seq<Event>): Option<Event> {
    if log == [] || log[|log| - 1].FirstLook? then None
    else if log[|log| - 1].WroteSession? then Some(log[|log| - 1])
    else LastWrite(log[..|log| - 1])
  }

  /** The attempt has sent its spawn. */
  predicate Launched(log: seq<Event>) {
    log != [] && !log[|log| - 1].FirstLook? && (log[|log| - 1].Spawn? || Launched(log[..|log| - 1]))
  }

  predicate HasClaimed(log: seq<Event>) {
    LastClaim(log).Some? && LastClaim(log).value.granted.Some?
  }

  /** The host asked for wins over the preferred one, and that over the one on record. */
  predicate Placed(input: Input, seen: Info, m: Metadata, host: string) {
    && (input.host.Some? ==> host == input.host.value)
    && (input.host.None? && seen.preferredHost.Some? ==> host == seen.preferredHost.value)
    && (input.host.None? && seen.preferredHost.None? ==> host == m.hostname)
  }

  /**
   * Only the SDK agents get an SDK adapter, everybody else an interactive one. A recorded
   * adapter id wins; without one an SDK agent's adapter has the agent's name.
   */
  predicate Routed(m: Metadata, id: string, class_: AdapterClass) {
    && (class_ == Sdk <==>
          || m.agentType == Some("copilot") || m.agentType == Some("mock") || m.agentType == Some("claude-api")
          || m.agentType == Some("opencode") || m.agentType == Some("claude-code-headless"))
    && (m.adapterId.GetOr("") != "" ==> Some(id) == m.adapterId)
    && (m.adapterId.GetOr("") == "" && class_ == Sdk ==> Some(id) == m.agentType)
    && (m.adapterId.GetOr("") == "" && class_ == Interactive ==> id == "claude-code")
  }

  lemma RoutesAreRight(input: Input, seen: Info, m: Metadata)
    ensures Placed(input, seen, m, HostOf(input, seen, m))
    ensures Routed(m, AdapterIdOf(m), AdapterClassOf(m))
  {
  }

  /** May `e` be done after `log`? */
  predicate Allowed(input: Input, log: seq<Event>, e: Event) {
    e.FirstLook? ||
    (FirstSeen(log).Some? && !FirstSeen(log).value.phase.Gone? && !Launched(log) &&
     match e
     case FirstLook(_) => true
     case AskedToDetach => LastLook(log).Some? && Responsive(LastLook(log).value.phase)
     case SecondLook(_) =>
       !HasClaimed(log) && (Responsive(FirstSeen(log).value.phase) ==> log[|log| - 1].AskedToDetach?)
     case ForcedDetach(expected, _) =>
       && input.force && log[|log| - 1].SecondLook?
       && LastLook(log).Some? && !Free(LastLook(log).value.phase)
       && expected == LastLook(log).value.attachmentId
     case ReadMetadata(_) => !HasClaimed(log)
     case Claim(host, id, class_, _) =>
       && !HasClaimed(log)
       && LastLook(log).Some?
       && (Free(LastLook(log).value.phase)
           || (input.force && DetachedSince(log, LastLook(log).value.attachmentId)))
       && LastMetadata(log).Some?
       && Placed(input, FirstSeen(log).value, LastMetadata(log).value, host)
       && Routed(LastMetadata(log).value, id, class_)
     case ReadState(_, _) => HasClaimed(log)
     case Restored(_, _, _) => HasClaimed(log) && LastWrite(log).None?
     case Replayed(sender, _, _, _) => HasClaimed(log) && LastWrite(log).None? && sender == input.invoker
     case WroteSession(_, _) => HasClaimed(log) && LastWrite(log).None?
     case Spawn(spec, _) =>
       && HasClaimed(log)
       && Token(spec.attachmentId, spec.runId) == LastClaim(log).value.granted.value
       && spec.host == LastClaim(log).value.host && spec.adapterId == LastClaim(log).value.adapterId
       && LastWrite(log) == Some(WroteSession(spec.sessionId, true))
       && LastMetadata(log).Some? && spec.model == LastMetadata(log).value.model
       && (spec.definition.Some? ==> LastMetadata(log).value.playerType.GetOr("") != "")
       && !spec.resume)
  }

  predicate Safe(input: Input, log: seq<Event>) {
    log == [] || (Safe(input, log[..|log| - 1]) && Allowed(input, log[..|log| - 1], log[|log| - 1]))
  }

  // ---------------------------------------------------------------------------------------
  // Safety of one attempt
  // ---------------------------------------------------------------------------------------

  /** What a claim rests on: the last look was free, or the holder it showed was forced off. */
  predicate MayClaim(input: Input, log: seq<Event>) {
    LastLook(log).Some? &&
    (Free(LastLook(log).value.phase) || (input.force && DetachedSince(log, LastLook(log).value.attachmentId)))
  }

  /** The attempt writing `log` began by seeing `info`, and is not over. */
  predicate Underway(input: Input, log: seq<Event>, info: Info) {
    Safe(input, log) && FirstSeen(log) == Some(info) && !info.phase.Gone? && !Launched(log)
  }

  /** What one more event does to the log's summaries. */
  lemma Snoc(input: Input, log: seq<Event>, e: Event)
    ensures Safe(input, log + [e]) <==> Safe(input, log) && Allowed(input, log, e)
    ensures LastLook(log + [e]) == if IsLook(e) then Some(e.info) else LastLook(log)
    ensures FirstSeen(log + [e]) == if e.FirstLook? then Some(e.info) else FirstSeen(log)
    ensures LastMetadata(log + [e]) ==
      if e.FirstLook? then None else if e.ReadMetadata? then Some(e.metadata) else LastMetadata(log)
    ensures LastClaim(log + [e]) == if e.FirstLook? then None else if e.Claim? then Some(e) else LastClaim(log)
    ensures LastWrite(log + [e]) == if e.FirstLook? then None else if e.WroteSession? then Some(e) else LastWrite(log)
    ensures Launched(log + [e]) <==> !e.FirstLook? && (e.Spawn? || Launched(log))
    ensures forall id :: DetachedSince(log + [e], id) <==>
      !IsLook(e) && (e == ForcedDetach(id, true) || DetachedSince(log, id))
  {
    assert (log + [e])[..|log|] == log;
  }

  lemma LaunchIsSafe(input: Input, r: Replies, m: Metadata, host: string, token: Token, log: seq<Event>, info: Info)
    requires Underway(input, log, info) && LastWrite(log).None? && LastMetadata(log) == Some(m)
    requires LastClaim(log) == Some(Claim(host, AdapterIdOf(m), AdapterClassOf(m), Some(token)))
    ensures Safe(input, Launch(r, m, host, token, log).log)
  {
    hide Safe, LastClaim, LastWrite, LastLook, FirstSeen, LastMetadata, Launched, DetachedSince;
    var e := WroteSession(r.uuid, r.write.Ok?);
    Snoc(input, log, e);
    var after := Launch(r, m, host, token, log).log;
    if r.write.Ok? {
      assert after == log + [e] + [after[|after| - 1]];
      Snoc(input, log + [e], after[|after| - 1]);
    }
  }

  lemma CatchupIsSafe(input: Input, r: Replies, m: Metadata, host: string, token: Token, wanted: bool,
                      log: seq<Event>, info: Info)
    requires Underway(input, log, info) && LastWrite(log).None? && LastMetadata(log) == Some(m)
    requires LastClaim(log) == Some(Claim(host, AdapterIdOf(m), AdapterClassOf(m), Some(token)))
    ensures Safe(input, Catchup(input, r, m, host, token, wanted, log).log)
  {
    hide Safe, LastClaim, LastWrite, LastLook, FirstSeen, LastMetadata, Launched, DetachedSince, Launch;
    if input.startFresh || !wanted {
      LaunchIsSafe(input, r, m, host, token, log, info);
    } else if r.part.Ok? && r.messages.Ok? {
      var e := Replayed(input.invoker, r.part.value, Recent(r.messages.value, input.contextMessages), r.replay.Ok?);
      Snoc(input, log, e);
      if r.replay.Ok? {
        LaunchIsSafe(input, r, m, host, token, log + [e], info);
      }
    }
  }

  lemma SeedIsSafe(input: Input, r: Replies, m: Metadata, host: string, token: Token, log: seq<Event>, info: Info)
    requires Underway(input, log, info) && LastWrite(log).None? && LastMetadata(log) == Some(m)
    requires LastClaim(log) == Some(Claim(host, AdapterIdOf(m), AdapterClassOf(m), Some(token)))
    ensures Safe(input, Seed(input, r, m, host, token, log).log)
  {
    hide Safe, LastClaim, LastWrite, LastLook, FirstSeen, LastMetadata, Launched, DetachedSince, Catchup;
    if input.loadFromState.None? {
      CatchupIsSafe(input, r, m, host, token, true, log, info);
    } else if r.state.Ok? {
      var key := KeyOf(input.loadFromState.value);
      var read := log + [ReadState(key, r.state.value)];
      Snoc(input, log, ReadState(key, r.state.value));
      if r.state.value.None? {
        CatchupIsSafe(input, r, m, host, token, true, read, info);
      } else {
        var e := Restored(key, r.state.value.value, r.restore.Ok?);
        Snoc(input, read, e);
        if r.restore.Ok? {
          CatchupIsSafe(input, r, m, host, token, input.stackTranscript, read + [e], info);
        }
      }
    }
  }

  lemma TakeOverIsSafe(input: Input, r: Replies, info: Info, log: seq<Event>)
    requires Underway(input, log, info) && MayClaim(input, log)
    requires LastClaim(log).None? && LastWrite(log).None?
    ensures Safe(input, TakeOver(input, r, info, log).log)
  {
    hide Safe, LastClaim, LastWrite, LastLook, FirstSeen, LastMetadata, Launched, DetachedSince, Seed;
    if r.metadata.Ok? {
      var m := r.metadata.value;
      var read := log + [ReadMetadata(m)];
      Snoc(input, log, ReadMetadata(m));
      var host := HostOf(input, info, m);
      RoutesAreRight(input, info, m);
      var e := Claim(host, AdapterIdOf(m), AdapterClassOf(m), if r.claim.Ok? then Some(r.claim.value) else None);
      Snoc(input, read, e);
      if r.claim.Ok? {
        SeedIsSafe(input, r, m, host, r.claim.value, read + [e], info);
      }
    }
  }

  lemma ReapIsSafe(input: Input, r: Replies, info: Info, log: seq<Event>)
    requires Underway(input, log, info) && log != []
    requires Responsive(info.phase) ==> log[|log| - 1].AskedToDetach?
    requires LastClaim(log).None? && LastWrite(log).None?
    ensures Safe(input, Reap(input, r, info, log).log)
  {
    hide Safe, LastClaim, LastWrite, LastLook, FirstSeen, LastMetadata, Launched, DetachedSince, TakeOver;
    if r.lookAgain.Ok? {
      var again := r.lookAgain.value;
      var seen := log + [SecondLook(again)];
      Snoc(input, log, SecondLook(again));
      if Free(again.phase) {
        TakeOverIsSafe(input, r, info, seen);
      } else if input.force {
        var e := ForcedDetach(again.attachmentId, r.detach.Ok?);
        Snoc(input, seen, e);
        if r.detach.Ok? {
          TakeOverIsSafe(input, r, info, seen + [e]);
        }
      }
    }
  }

  /**
   * Whatever the replies, an attempt does nothing the monitor forbids: nothing after a first
   * look that shows `gone`; a claim only after a free last look or, under force, after forcing
   * off the holder that look showed; a spawn only for the claim just granted and the session
   * id just written.
   */
  lemma DeliverIsSafe(input: Input, r: Replies)
    ensures Safe(input, Deliver(input, r).log)
  {
    hide LastClaim, LastWrite, LastLook, FirstSeen, LastMetadata, Launched, DetachedSince, TakeOver, Reap;
    if r.resolve.Ok? && r.resolve.value && r.look.Ok? {
      var info := r.look.value;
      var log := [FirstLook(info)];
      Snoc(input, [], FirstLook(info));
      assert [] + [FirstLook(info)] == log;
      if info.phase.Gone? {
      } else if Free(info.phase) {
        TakeOverIsSafe(input, r, info, log);
      } else if Responsive(info.phase) {
        Snoc(input, log, AskedToDetach);
        ReapIsSafe(input, r, info, log + [AskedToDetach]);
      } else {
        assert log + [] == log;
        ReapIsSafe(input, r, info, log);
      }
    }
  }

  // ---------------------------------------------------------------------------------------
  // Safety of the whole run
  // ---------------------------------------------------------------------------------------

  lemma {:induction false} SafePrefix(input: Input, log: seq<Event>, n: nat)
    requires Safe(input, log) && n <= |log|
    ensures Safe(input, log[..n])
  {
    if n < |log| {
      SafePrefix(input, log[..|log| - 1], n);
      assert log[..|log| - 1][..n] == log[..n];
    } else {
      assert log[..n] == log;
    }
  }

  lemma {:induction false} SafeStartsWithALook(input: Input, log: seq<Event>)
    requires Safe(input, log) && log != []
    ensures log[0].FirstLook?
  {
    SafePrefix(input, log, 1);
    assert log[..1][..0] == [];
  }

  /** What an attempt wrote hides what earlier attempts did. */
  lemma {:induction false} EarlierAttemptsDoNotMatter(before: seq<Event>, log: seq<Event>)
    requires log != [] && log[0].FirstLook?
    ensures LastLook(before + log) == LastLook(log) && FirstSeen(before + log) == FirstSeen(log)
    ensures LastMetadata(before + log) == LastMetadata(log) && LastClaim(before + log) == LastClaim(log)
    ensures LastWrite(before + log) == LastWrite(log) && (Launched(before + log) <==> Launched(log))
    ensures forall id :: DetachedSince(before + log, id) <==> DetachedSince(log, id)
  {
    var all := before + log;
    assert all[|all| - 1] == log[|log| - 1];
    if |log| > 1 {
      assert all[..|all| - 1] == before + log[..|log| - 1];
      EarlierAttemptsDoNotMatter(before, log[..|log| - 1]);
    }
  }

  lemma {:induction false} SafeConcat(input: Input, before: seq<Event>, log: seq<Event>)
    requires Safe(input, before) && Safe(input, log)
    ensures Safe(input, before + log)
  {
    if log == [] {
      assert before + log == before;
    } else {
      var init, e := log[..|log| - 1], log[|log| - 1];
      SafeStartsWithALook(input, log);
      SafeConcat(input, before, init);
      if init != [] {
        EarlierAttemptsDoNotMatter(before, init);
      }
      Snoc(input, before + init, e);
      assert before + log == before + init + [e];
    }
  }

  /** Safety holds over any number of retries, even when a worker is lost half way through. */
  lemma {:induction false} RunIsSafe(input: Input, tries: seq<Try>)
    ensures Safe(input, Run(input, tries))
  {
    if tries != [] {
      DeliverIsSafe(input, tries[0].replies);
      var log := Deliver(input, tries[0].replies).log;
      SafePrefix(input, log, |LogOf(input, tries[0])|);
      assert log[..|log|] == log;
      RunIsSafe(input, tries[1..]);
      SafeConcat(input, LogOf(input, tries[0]), if TriedAgain(input, tries[0]) then Run(input, tries[1..]) else []);
    }
  }

  /** The monitor's verdict at every position, which is how a reader meets it. */
  lemma {:induction false} EveryStepAllowed(input: Input, tries: seq<Try>, i: nat)
    requires i < |Run(input, tries)|
    ensures Allowed(input, Run(input, tries)[..i], Run(input, tries)[i])
  {
    RunIsSafe(input, tries);
    SafePrefix(input, Run(input, tries), i + 1);
    assert Run(input, tries)[..i + 1][..i] == Run(input, tries)[..i];
  }

  // ---------------------------------------------------------------------------------------
  // One spawn, with an identifier of its own
  // ---------------------------------------------------------------------------------------

  predicate Unwritten(log: seq<Event>) {
    forall e <- log :: !e.WroteSession? && !e.Spawn?
  }

  /** How an attempt ends: short of the session id, short of the spawn, or with the spawn. */
  predicate Closed(r: Replies, a: Attempt) {
    var n := |a.log|;
    || (Unwritten(a.log) && !a.outcome.Done?)
    || (n >= 1 && a.log[n - 1] == WroteSession(r.uuid, false) && Unwritten(a.log[..n - 1]) && !a.outcome.Done?)
    || (n >= 2 && a.log[n - 2] == WroteSession(r.uuid, true) && a.log[n - 1].Spawn? && Unwritten(a.log[..n - 2])
        && (a.outcome.Done? <==> a.log[n - 1].done))
  }

  lemma LaunchCloses(r: Replies, m: Metadata, host: string, token: Token, log: seq<Event>)
    requires Unwritten(log)
    ensures Closed(r, Launch(r, m, host, token, log))
  {
    var after := Launch(r, m, host, token, log).log;
    assert after[..|log|] == log;
  }

  lemma SeedCloses(input: Input, r: Replies, m: Metadata, host: string, token: Token, log: seq<Event>)
    requires Unwritten(log)
    ensures Closed(r, Seed(input, r, m, host, token, log))
  {
    hide Launch, Closed;
    forall log', wanted | Unwritten(log')
      ensures Closed(r, Catchup(input, r, m, host, token, wanted, log'))
    {
      CatchupCloses(input, r, m, host, token, wanted, log');
    }
    UnwrittenCloses(r);
  }

  lemma UnwrittenCloses(r: Replies)
    ensures forall a: Attempt :: Unwritten(a.log) && !a.outcome.Done? ==> Closed(r, a)
  {
  }

  lemma CatchupCloses(input: Input, r: Replies, m: Metadata, host: string, token: Token, wanted: bool, log: seq<Event>)
    requires Unwritten(log)
    ensures Closed(r, Catchup(input, r, m, host, token, wanted, log))
  {
    hide Launch, Closed;
    UnwrittenCloses(r);
    if input.startFresh || !wanted {
      LaunchCloses(r, m, host, token, log);
    } else if r.part.Ok? && r.messages.Ok? {
      var e := Replayed(input.invoker, r.part.value, Recent(r.messages.value, input.contextMessages), r.replay.Ok?);
      assert Unwritten(log + [e]);
      LaunchCloses(r, m, host, token, log + [e]);
    }
  }

  lemma TakeOverCloses(input: Input, r: Replies, info: Info, log: seq<Event>)
    requires Unwritten(log)
    ensures Closed(r, TakeOver(input, r, info, log))
  {
    hide Seed, Closed;
    UnwrittenCloses(r);
    if r.metadata.Ok? {
      var m := r.metadata.value;
      var host := HostOf(input, info, m);
      var e := Claim(host, AdapterIdOf(m), AdapterClassOf(m), if r.claim.Ok? then Some(r.claim.value) else None);
      assert Unwritten(log + [ReadMetadata(m)] + [e]);
      if r.claim.Ok? {
        SeedCloses(input, r, m, host, r.claim.value, log + [ReadMetadata(m)] + [e]);
      }
    }
  }

  lemma DeliverCloses(input: Input, r: Replies)
    ensures Closed(r, Deliver(input, r))
  {
    hide TakeOver, Closed;
    UnwrittenCloses(r);
    forall info, log | Unwritten(log) ensures Closed(r, TakeOver(input, r, info, log)) {
      TakeOverCloses(input, r, info, log);
    }
  }

  /** The acknowledged spawns in a log. */
  function Spawns(log: seq<Event>): nat {
    if log == [] then 0 else (if log[0].Spawn? && log[0].done then 1 else 0) + Spawns(log[1..])
  }

  /** The session identifiers a log wrote, in order. */
  function Written(log: seq<Event>): seq<string> {
    if log == [] then [] else (if log[0].WroteSession? then [log[0].sessionId] else []) + Written(log[1..])
  }

  lemma {:induction false} SpawnsJoin(a: seq<Event>, b: seq<Event>)
    ensures Spawns(a + b) == Spawns(a) + Spawns(b)
  {
    if a == [] {
      assert a + b == b;
    } else {
      SpawnsJoin(a[1..], b);
      assert (a + b)[0] == a[0] && (a + b)[1..] == a[1..] + b;
    }
  }

  lemma {:induction false} WrittenJoin(a: seq<Event>, b: seq<Event>)
    ensures Written(a + b) == Written(a) + Written(b)
  {
    hide *;
    if a == [] {
      NothingWritten();
      assert a + b == b;
    } else {
      var e, rest := a[0], a[1..];
      WrittenJoin(rest, b);
      WrittenCons(e, rest);
      WrittenCons(e, rest + b);
      assert a == [e] + rest && a + b == [e] + (rest + b);
      Associates(if e.WroteSession? then [e.sessionId] else [], Written(rest), Written(b));
    }
  }

  lemma WrittenCons(e: Event, log: seq<Event>)
    ensures Written([e] + log) == (if e.WroteSession? then [e.sessionId] else []) + Written(log)
  {
    assert ([e] + log)[1..] == log;
  }

  lemma CountsSnoc(log: seq<Event>, e: Event)
    ensures Spawns(log + [e]) == Spawns(log) + if e.Spawn? && e.done then 1 else 0
    ensures Written(log + [e]) == Written(log) + if e.WroteSession? then [e.sessionId] else []
  {
    SpawnsJoin(log, [e]);
    WrittenJoin(log, [e]);
    assert [e][1..] == [];
  }

  lemma {:induction false} UnwrittenCountsNothing(log: seq<Event>)
    requires Unwritten(log)
    ensures Spawns(log) == 0 && Written(log) == []
  {
    if log != [] {
      assert log[0] in log;
      UnwrittenCountsNothing(log[1..]);
    }
  }

  lemma ClosedCounts(r: Replies, a: Attempt)
    requires Closed(r, a)
    ensures Spawns(a.log) == if a.outcome.Done? then 1 else 0
    ensures Written(a.log) == [] || Written(a.log) == [r.uuid]
  {
    hide Spawns, Written;
    var log, n := a.log, |a.log|;
    if Unwritten(log) {
      UnwrittenCountsNothing(log);
    } else if log[n - 1] == WroteSession(r.uuid, false) && Unwritten(log[..n - 1]) {
      assert log == log[..n - 1] + [log[n - 1]];
      UnwrittenCountsNothing(log[..n - 1]);
      CountsSnoc(log[..n - 1], log[n - 1]);
    } else {
      assert log[..n - 1] == log[..n - 2] + [log[n - 2]] && log == log[..n - 1] + [log[n - 1]];
      UnwrittenCountsNothing(log[..n - 2]);
      CountsSnoc(log[..n - 2], log[n - 2]);
      CountsSnoc(log[..n - 1], log[n - 1]);
    }
  }

  /** The attempts the activity makes before it is over. */
  function Made(input: Input, tries: seq<Try>): seq<Try> {
    if tries == [] then []
    else [tries[0]] + if TriedAgain(input, tries[0]) then Made(input, tries[1..]) else []
  }

  /** The attempt got as far as an acknowledged spawn, whether or not it lived to report it. */
  predicate Reached(input: Input, t: Try) {
    var a := Deliver(input, t.replies);
    a.outcome.Done? && (t.cut.None? || t.cut.value >= |a.log|)
  }

  function CountReached(input: Input, tries: seq<Try>): nat {
    if tries == [] then 0 else (if Reached(input, tries[0]) then 1 else 0) + CountReached(input, tries[1..])
  }

  function CountCut(tries: seq<Try>): nat {
    if tries == [] then 0 else (if tries[0].cut.Some? then 1 else 0) + CountCut(tries[1..])
  }

  lemma {:induction false} WithoutSpawns(log: seq<Event>)
    requires forall e <- log :: !e.Spawn?
    ensures Spawns(log) == 0
  {
    if log != [] {
      assert log[0] in log;
      WithoutSpawns(log[1..]);
    }
  }

  /** The spawn is the last thing an attempt does. */
  lemma BrokenOffBefore(r: Replies, a: Attempt, k: nat)
    requires Closed(r, a) && k < |a.log|
    ensures Spawns(a.log[..k]) == 0
  {
    hide Spawns;
    var log, n := a.log, |a.log|;
    forall e | e in log[..k] ensures !e.Spawn? {
      var i :| 0 <= i < k && log[i] == e;
      if Unwritten(log) {
        assert log[i] in log;
      } else if log[n - 1] == WroteSession(r.uuid, false) && Unwritten(log[..n - 1]) {
        assert log[..n - 1][i] in log[..n - 1];
      } else if i < n - 2 {
        assert log[..n - 2][i] in log[..n - 2];
      }
    }
    WithoutSpawns(log[..k]);
  }

  lemma OwnSpawns(input: Input, t: Try)
    ensures Spawns(LogOf(input, t)) == if Reached(input, t) then 1 else 0
  {
    hide Deliver, Spawns, Closed;
    var a := Deliver(input, t.replies);
    DeliverCloses(input, t.replies);
    ClosedCounts(t.replies, a);
    if t.cut.Some? && t.cut.value < |a.log| {
      BrokenOffBefore(t.replies, a, t.cut.value);
    }
  }

  lemma NothingSpawned()
    ensures Spawns([]) == 0
  {
  }

  /**
   * When every attempt reports back, at most one spawn is acknowledged, and one is exactly
   * when the last attempt reported success.
   */
  lemma {:induction false} AtMostOneSpawn(input: Input, tries: seq<Try>)
    requires forall t <- tries :: t.cut.None?
    ensures Spawns(Run(input, tries)) <= 1
    ensures var made := Made(input, tries);
      Spawns(Run(input, tries)) == 1 <==> made != [] && Deliver(input, made[|made| - 1].replies).outcome.Done?
  {
    hide Deliver, Spawns, LogOf;
    NothingSpawned();
    if tries != [] {
      assert tries[0] in tries;
      OwnSpawns(input, tries[0]);
      AtMostOneSpawn(input, tries[1..]);
      SpawnsJoin(LogOf(input, tries[0]), if TriedAgain(input, tries[0]) then Run(input, tries[1..]) else []);
      assert Made(input, tries)[0] == tries[0];
    }
  }

  /**
   * Over any number of retries, broken off anywhere: one acknowledged spawn for each attempt
   * that got that far, and so at most one more than there were attempts broken off.
   */
  lemma {:induction false} SpawnsAreExact(input: Input, tries: seq<Try>)
    ensures var made := Made(input, tries);
      Spawns(Run(input, tries)) == CountReached(input, made) <= CountCut(made) + 1
  {
    hide Deliver, Spawns, LogOf;
    if tries == [] {
      NothingSpawned();
    } else {
      var own, made := LogOf(input, tries[0]), Made(input, tries);
      OwnSpawns(input, tries[0]);
      NothingSpawned();
      SpawnsJoin(own, if TriedAgain(input, tries[0]) then Run(input, tries[1..]) else []);
      SpawnsAreExact(input, tries[1..]);
      if TriedAgain(input, tries[0]) {
        assert made[1..] == Made(input, tries[1..]);
      } else {
        assert made[1..] == [];
      }
    }
  }

  /** `n` attempts that spawn and are lost before they report, and one that reports. */
  function Unreported(r: Replies, end: nat, n: nat): seq<Try> {
    if n == 0 then [Try(r, None)] else [Try(r, Some(end))] + Unreported(r, end, n - 1)
  }

  /** No smaller bound would do: each attempt that is broken off after its spawn can leave one behind. */
  lemma {:induction false} EachCutCanSpawn(input: Input, r: Replies, n: nat)
    requires Deliver(input, r).outcome.Done?
    ensures var tries := Unreported(r, |Deliver(input, r).log|, n);
      && Made(input, tries) == tries && CountCut(tries) == n
      && Spawns(Run(input, tries)) == n + 1
  {
    hide Deliver, Spawns, LogOf;
    var tries := Unreported(r, |Deliver(input, r).log|, n);
    OwnSpawns(input, tries[0]);
    NothingSpawned();
    if n == 0 {
      SpawnsJoin(LogOf(input, tries[0]), []);
    } else {
      EachCutCanSpawn(input, r, n - 1);
      assert tries[1..] == Unreported(r, |Deliver(input, r).log|, n - 1);
      SpawnsJoin(LogOf(input, tries[0]), Run(input, tries[1..]));
    }
  }

  lemma {:induction false} WrittenPrefix(log: seq<Event>, n: nat)
    requires n <= |log|
    ensures Written(log[..n]) <= Written(log)
  {
    WrittenJoin(log[..n], log[n..]);
    assert log[..n] + log[n..] == log;
  }

  predicate Distinct(ids: seq<string>) {
    forall i, j | 0 <= i < j < |ids| :: ids[i] != ids[j]
  }

  function Drawn(tries: seq<Try>): seq<string> {
    seq(|tries|, i requires 0 <= i < |tries| => tries[i].replies.uuid)
  }

  lemma NothingWritten()
    ensures Written([]) == []
  {
  }

  lemma OwnWrites(input: Input, t: Try)
    ensures Written(LogOf(input, t)) == [] || Written(LogOf(input, t)) == [t.replies.uuid]
  {
    hide Deliver, Written, Closed;
    var log, own := Deliver(input, t.replies).log, LogOf(input, t);
    DeliverCloses(input, t.replies);
    ClosedCounts(t.replies, Deliver(input, t.replies));
    WrittenPrefix(log, |own|);
    assert log[..|own|] == own;
  }

  lemma DistinctJoin(a: seq<string>, b: seq<string>)
    requires Distinct(a) && Distinct(b)
    requires forall id <- b :: id !in a
    ensures Distinct(a + b)
  {
    forall i, j | 0 <= i < j < |a + b| ensures (a + b)[i] != (a + b)[j] {
      if i < |a| <= j {
        assert b[j - |a|] in b;
      }
    }
  }

  /** As long as the identifiers drawn differ, no restart writes a session id twice. */
  lemma {:induction false} SessionIdsAreFresh(input: Input, tries: seq<Try>)
    requires Distinct(Drawn(tries))
    ensures Distinct(Written(Run(input, tries)))
    ensures forall id <- Written(Run(input, tries)) :: id in Drawn(tries)
  {
    hide Deliver, Written, Closed;
    if tries == [] {
      NothingWritten();
    } else {
      var r := tries[0].replies;
      var own := LogOf(input, tries[0]);
      OwnWrites(input, tries[0]);
      assert Drawn(tries) == [r.uuid] + Drawn(tries[1..]);
      assert Drawn(tries)[1..] == Drawn(tries[1..]);
      forall i, j | 0 <= i < j < |Drawn(tries[1..])| ensures Drawn(tries[1..])[i] != Drawn(tries[1..])[j] {
        assert Drawn(tries)[i + 1] != Drawn(tries)[j + 1];
      }
      SessionIdsAreFresh(input, tries[1..]);
      NothingWritten();
      var rest := if TriedAgain(input, tries[0]) then Run(input, tries[1..]) else [];
      WrittenJoin(own, rest);
      forall j | 0 <= j < |Drawn(tries[1..])| ensures Drawn(tries[1..])[j] != r.uuid {
        assert Drawn(tries)[0] == r.uuid && Drawn(tries)[j + 1] == Drawn(tries[1..])[j];
      }
      assert Run(input, tries) == own + rest;
      assert forall id <- Written(rest) :: id in Drawn(tries[1..]);
      assert forall id <- Written(own) :: id == r.uuid;
      DistinctJoin(Written(own), Written(rest));
    }
  }

  // ---------------------------------------------------------------------------------------
  // What a successful restart told the new session
  // ---------------------------------------------------------------------------------------

  /** The saved state that was found, if it was asked for. */
  function Found(input: Input, r: Replies): Option<Entry> {
    if input.loadFromState.Some? && r.state.Ok? then r.state.value else None
  }

  predicate Replays(input: Input, found: Option<Entry>) {
    !input.startFresh && (found.None? || input.stackTranscript)
  }

  predicate Answered(input: Input, r: Replies) {
    (input.loadFromState.Some? ==> r.state.Ok?) && (Replays(input, Found(input, r)) ==> r.part.Ok? && r.messages.Ok?)
  }

  /** Saved state replaces the transcript, unless there is none or both were asked for. */
  function Told(input: Input, r: Replies): seq<Event>
    requires Answered(input, r)
  {
    (if input.loadFromState.Some? then [ReadState(KeyOf(input.loadFromState.value), r.state.value)] else [])
    + (if Found(input, r).Some? then [Restored(KeyOf(input.loadFromState.value), Found(input, r).value, true)] else [])
    + (if Replays(input, Found(input, r))
       then [Replayed(input.invoker, r.part.value, Recent(r.messages.value, input.contextMessages), true)] else [])
  }

  /** A log that ends with a claim, what the session is told, the session id and the spawn. */
  predicate EndsInLaunch(log: seq<Event>, claim: Event, told: seq<Event>) {
    var n := |log| - |told| - 3;
    && n >= 0 && claim.Claim? && log[n] == claim && log[n + 1..n + 1 + |told|] == told
    && log[n + 1 + |told|].WroteSession? && log[n + 2 + |told|].Spawn?
  }

  /** `after` is `base` with a session id and a spawn appended. */
  predicate Launches(after: seq<Event>, base: seq<Event>) {
    |after| == |base| + 2 && after[..|base|] == base && after[|base|].WroteSession? && after[|base| + 1].Spawn?
  }

  lemma CatchupTells(input: Input, r: Replies, m: Metadata, host: string, token: Token, wanted: bool, log: seq<Event>)
    requires Catchup(input, r, m, host, token, wanted, log).outcome.Done?
    ensures !input.startFresh && wanted ==> r.part.Ok? && r.messages.Ok?
    ensures Launches(Catchup(input, r, m, host, token, wanted, log).log,
      log + if !input.startFresh && wanted
            then [Replayed(input.invoker, r.part.value, Recent(r.messages.value, input.contextMessages), true)] else [])
  {
    var after := Catchup(input, r, m, host, token, wanted, log).log;
    var base := after[..|after| - 2];
    assert log + [] == log;
    assert after == base + [after[|after| - 2]] + [after[|after| - 1]];
  }

  lemma SeedTells(input: Input, r: Replies, m: Metadata, host: string, token: Token, log: seq<Event>)
    requires log != [] && log[|log| - 1].Claim?
    requires Seed(input, r, m, host, token, log).outcome.Done?
    ensures Answered(input, r)
    ensures EndsInLaunch(Seed(input, r, m, host, token, log).log, log[|log| - 1], Told(input, r))
  {
    hide Catchup;
    var found := Found(input, r);
    var asked := if input.loadFromState.Some? then [ReadState(KeyOf(input.loadFromState.value), r.state.value)] else [];
    var restores := if found.Some? then [Restored(KeyOf(input.loadFromState.value), found.value, true)] else [];
    var base := log + asked + restores;
    assert Seed(input, r, m, host, token, log)
      == Catchup(input, r, m, host, token, found.None? || input.stackTranscript, base) by {
      assert log + [] == log && log + asked + [] == log + asked;
    }
    CatchupTells(input, r, m, host, token, found.None? || input.stackTranscript, base);
    LaunchesEnds(Seed(input, r, m, host, token, log).log, log, Told(input, r));
  }

  lemma LaunchesEnds(after: seq<Event>, log: seq<Event>, told: seq<Event>)
    requires log != [] && log[|log| - 1].Claim?
    requires Launches(after, log + told)
    ensures EndsInLaunch(after, log[|log| - 1], told)
  {
    var base := log + told;
    assert after[|log|..|log| + |told|] == base[|log|..];
    assert after[|log| - 1] == base[|log| - 1];
  }

  ghost predicate Tells(input: Input, r: Replies, log: seq<Event>) {
    && Answered(input, r) && r.claim.Ok?
    && exists claim: Event ::
         claim.Claim? && claim.granted == Some(r.claim.value) && EndsInLaunch(log, claim, Told(input, r))
  }

  lemma TakeOverTells(input: Input, r: Replies, info: Info, log: seq<Event>)
    requires TakeOver(input, r, info, log).outcome.Done?
    ensures Tells(input, r, TakeOver(input, r, info, log).log)
  {
    hide Seed, EndsInLaunch;
    var m, token := r.metadata.value, r.claim.value;
    var host := HostOf(input, info, m);
    var claim := Claim(host, AdapterIdOf(m), AdapterClassOf(m), Some(token));
    SeedTells(input, r, m, host, token, log + [ReadMetadata(m)] + [claim]);
  }

  lemma ReapTells(input: Input, r: Replies, info: Info, log: seq<Event>)
    requires Reap(input, r, info, log).outcome.Done?
    ensures Tells(input, r, Reap(input, r, info, log).log)
  {
    hide TakeOver, Tells;
    var again := r.lookAgain.value;
    var seen := log + [SecondLook(again)];
    if Free(again.phase) {
      TakeOverTells(input, r, info, seen);
    } else {
      TakeOverTells(input, r, info, seen + [ForcedDetach(again.attachmentId, true)]);
    }
  }

  /**
   * A restart that succeeds ends with the claim, exactly the seeding that was asked for, the
   * fresh session id and the spawn: a saved state that was found first, then the transcript
   * when no state was found or both were wanted, and never the transcript of a fresh start.
   */
  lemma SuccessTells(input: Input, r: Replies)
    requires Deliver(input, r).outcome.Done?
    ensures Tells(input, r, Deliver(input, r).log)
  {
    hide TakeOver, Reap, Tells;
    var info := r.look.value;
    if Free(info.phase) {
      TakeOverTells(input, r, info, [FirstLook(info)]);
    } else {
      var log := [FirstLook(info)] + if Responsive(info.phase) then [AskedToDetach] else [];
      ReapTells(input, r, info, log);
    }
  }

  // ---------------------------------------------------------------------------------------
  // The activity as it is written
  // ---------------------------------------------------------------------------------------

  method DeliverRestart(input: Input, r: Replies) returns (log: seq<Event>, outcome: Outcome)
    ensures Attempt(log, outcome) == Deliver(input, r)
    ensures Safe(input, log)
  {
    DeliverIsSafe(input, r);
    hide Safe, TakeOver;
    log := [];
    if r.resolve.Threw? { return log, Failed(r.resolve.transient); }
    if !r.resolve.value { return log, Permanent; }

    if r.look.Threw? { return log, Failed(r.look.transient); }
    var info := r.look.value;
    log := log + [FirstLook(info)];
    assert log == [FirstLook(info)] && log + [] == log;
    if info.phase.Gone? { return log, Permanent; }

    if !info.phase.Detached? && !info.phase.Booting? {
      if info.phase.Attached? || info.phase.Awaiting? || info.phase.Processing? {
        log := log + [AskedToDetach];
      }
      if r.lookAgain.Threw? { return log, Failed(r.lookAgain.transient); }
      var again := r.lookAgain.value;
      log := log + [SecondLook(again)];
      if !again.phase.Detached? && !again.phase.Booting? {
        if !input.force { return log, Permanent; }
        log := log + [ForcedDetach(again.attachmentId, r.detach.Ok?)];
        if r.detach.Threw? { return log, Failed(r.detach.transient); }
      }
    }

    log, outcome := ClaimAndLaunch(input, r, info, log);
  }

  method ClaimAndLaunch(input: Input, r: Replies, info: Info, before: seq<Event>)
    returns (log: seq<Event>, outcome: Outcome)
    ensures Attempt(log, outcome) == TakeOver(input, r, info, before)
  {
    hide Seed;
    if r.metadata.Threw? { return before, Failed(r.metadata.transient); }
    var m := r.metadata.value;
    log := before + [ReadMetadata(m)];
    var host := HostOf(input, info, m);
    if r.claim.Threw? {
      return log + [Claim(host, AdapterIdOf(m), AdapterClassOf(m), None)], Failed(r.claim.transient);
    }
    var token := r.claim.value;
    log := log + [Claim(host, AdapterIdOf(m), AdapterClassOf(m), Some(token))];
    log, outcome := SeedAndLaunch(input, r, m, host, token, log);
  }

  method SeedAndLaunch(input: Input, r: Replies, m: Metadata, host: string, token: Token, before: seq<Event>)
    returns (log: seq<Event>, outcome: Outcome)
    ensures Attempt(log, outcome) == Seed(input, r, m, host, token, before)
  {
    log := before;
    var saved: Option<Entry> := None;
    if input.loadFromState.Some? {
      var key := KeyOf(input.loadFromState.value);
      if r.state.Threw? { return log, Failed(r.state.transient); }
      saved := r.state.value;
      log := log + [ReadState(key, saved)];
      if saved.Some? {
        log := log + [Restored(key, saved.value, r.restore.Ok?)];
        if r.restore.Threw? { return log, Failed(r.restore.transient); }
      }
    }

    var wantsTranscript := input.loadFromState.None? || input.stackTranscript || saved.None?;
    if !input.startFresh && wantsTranscript {
      if r.part.Threw? { return log, Failed(r.part.transient); }
      if r.messages.Threw? { return log, Failed(r.messages.transient); }
      var recent := Recent(r.messages.value, input.contextMessages);
      log := log + [Replayed(input.invoker, r.part.value, recent, r.replay.Ok?)];
      if r.replay.Threw? { return log, Failed(r.replay.transient); }
    }

    log := log + [WroteSession(r.uuid, r.write.Ok?)];
    if r.write.Threw? { return log, Failed(r.write.transient); }
    var definition := if m.playerType.Some? && m.playerType.value != "" then r.definition else None;
    var spec := SpawnSpec(host, token.attachmentId, token.runId, false, r.uuid, AdapterIdOf(m), m.model, definition);
    log := log + [Spawn(spec, r.spawn.Ok?)];
    outcome := if r.spawn.Ok? then Done else Failed(r.spawn.transient);
  }
}
