/**
 * The two configuration resolvers (src/config.ts:741-875, 892-968): `getConfig`, which the
 * program runs on, and `getConfigWithSources`, which tells the user where each value came
 * from. Both are written here as the source writes them, one with `||` chains and one with
 * early returns, and both are held against a list of layers in order of priority.
 */
module ConfigSources {
  import opened Options

  datatype Setting = Address | Namespace | ApiKey | CertPath | KeyPath | DefaultAgent | ClaudeBin | CostProfile

  datatype Source = Flag | Env | File | TemporalCli | Default | NoSource

  /** Unset and empty are different values, but both fall through. */
  type Value = Option<string>

  /**
   * What the resolvers read. The flags hold the connection settings and the agent; the
   * Temporal CLI's file holds the connection settings.
   */
  datatype Inputs = Inputs(dev: bool, flags: Setting -> Value, env: Setting -> Value, file: Setting -> Value,
                           temporalCli: Setting -> Value, taskQueue: Value, ensemble: Value)

  datatype Config = Config(address: string, namespace_: string, apiKey: Value, certPath: Value, keyPath: Value,
                           defaultAgent: string, claudeBin: Value, taskQueue: string, ensemble: string,
                           costProfile: string)

  datatype Result<T> = Returns(value: T) | Throws

  const AGENT_TYPES := {"claude", "copilot", "mock", "claude-api", "opencode", "claude-code-headless", "pi"}

  const COST_PROFILES := {"local", "cloud"}

  predicate Set(v: Value) {
    v.Some? && v.value != ""
  }

  /** JavaScript's `a || b`. */
  function Or(a: Value, b: Value): Value {
    if Set(a) then a else b
  }

  /** In dev mode the user's own address and namespace variables are not read. */
  function ReadEnv(i: Inputs, s: Setting): Value {
    if i.dev && (s.Address? || s.Namespace?) then None else i.env(s)
  }

  function DefaultNamespace(i: Inputs): string {
    if i.dev then "agent-tempo-dev" else "default"
  }

  function CliNamespace(i: Inputs): Value {
    if i.dev then None else i.temporalCli(Namespace)
  }

  function TaskQueue(i: Inputs): string {
    i.taskQueue.GetOr(if i.dev then "agent-tempo-dev" else "agent-tempo")
  }

  function ParseAgent(v: Value): Result<string> {
    if !Set(v) then Returns("claude") else if v.value in AGENT_TYPES then Returns(v.value) else Throws
  }

  function ParseCostProfile(v: Value): string {
    if Set(v) && v.value in COST_PROFILES then v.value else "local"
  }

  predicate AlphaNumeric(c: char) {
    'a' <= c <= 'z' || 'A' <= c <= 'Z' || '0' <= c <= '9'
  }

  predicate EnsembleOk(s: string) {
    && 1 <= |s| <= 64
    && AlphaNumeric(s[0]) && AlphaNumeric(s[|s| - 1])
    && forall c <- s :: AlphaNumeric(c) || c == '.' || c == '_' || c == '-'
  }

  // ---------------------------------------------------------------------------------------
  // The resolvers
  // ---------------------------------------------------------------------------------------

  /** `resolveOpt`, and `resolve` when a default is given. */
  function Resolve(i: Inputs, s: Setting, cli: Value, default: Value): Value {
    var v := Or(i.flags(s), Or(ReadEnv(i, s), Or(i.file(s), Or(cli, default))));
    if Set(v) then v else None
  }

  function ResolveAgent(i: Inputs): Result<string> {
    if Set(i.flags(DefaultAgent)) then ParseAgent(i.flags(DefaultAgent))
    else if Set(i.env(DefaultAgent)) then ParseAgent(i.env(DefaultAgent))
    else if Set(i.file(DefaultAgent)) then ParseAgent(i.file(DefaultAgent))
    else Returns("claude")
  }

  function GetConfig(i: Inputs): Result<Config> {
    var address := Resolve(i, Address, i.temporalCli(Address), Some("localhost:7233")).value;
    var namespace_ := Resolve(i, Namespace, CliNamespace(i), Some(DefaultNamespace(i))).value;
    var apiKey := Resolve(i, ApiKey, i.temporalCli(ApiKey), None);
    var certPath := Resolve(i, CertPath, i.temporalCli(CertPath), None);
    var keyPath := Resolve(i, KeyPath, i.temporalCli(KeyPath), None);
    match ResolveAgent(i)
    case Throws => Throws
    case Returns(agent) =>
      var claudeBin := Or(i.env(ClaudeBin), Or(i.file(ClaudeBin), None));
      var ensemble := i.ensemble.GetOr("default");
      var profile := ParseCostProfile(Or(i.env(CostProfile), i.file(CostProfile)));
      if EnsembleOk(ensemble) then
        Returns(Config(address, namespace_, apiKey, certPath, keyPath, agent, claudeBin, TaskQueue(i), ensemble,
                       profile))
      else Throws
  }

  datatype Sourced = Sourced(value: Value, source: Source)

  function ResolveWithSource(i: Inputs, s: Setting, flag: Value, cli: Value, default: Value): Sourced {
    if Set(flag) then Sourced(flag, Flag)
    else if Set(ReadEnv(i, s)) then Sourced(ReadEnv(i, s), Env)
    else if Set(i.file(s)) then Sourced(i.file(s), File)
    else if Set(cli) then Sourced(cli, TemporalCli)
    else if Set(default) then Sourced(default, Default)
    else Sourced(None, NoSource)
  }

  /** The value and source of every setting that is shown with one. */
  function Trace(i: Inputs, s: Setting): Sourced {
    match s
    case Address => ResolveWithSource(i, s, i.flags(s), i.temporalCli(s), Some("localhost:7233"))
    case Namespace => ResolveWithSource(i, s, i.flags(s), CliNamespace(i), Some(DefaultNamespace(i)))
    case ApiKey | CertPath | KeyPath => ResolveWithSource(i, s, i.flags(s), i.temporalCli(s), None)
    case DefaultAgent => ResolveWithSource(i, s, i.flags(s), None, Some("claude"))
    case ClaudeBin => ResolveWithSource(i, s, None, None, None)
    case CostProfile => ResolveWithSource(i, s, None, None, Some("local"))
  }

  datatype Explained = Explained(config: Config, sources: map<Setting, Source>)

  const SETTINGS := {Address, Namespace, ApiKey, CertPath, KeyPath, DefaultAgent, ClaudeBin, CostProfile}

  function GetConfigWithSources(i: Inputs): Result<Explained> {
    match ParseAgent(Trace(i, DefaultAgent).value)
    case Throws => Throws
    case Returns(agent) =>
      var config := Config(
        Trace(i, Address).value.GetOr(""), Trace(i, Namespace).value.GetOr(""), Trace(i, ApiKey).value,
        Trace(i, CertPath).value, Trace(i, KeyPath).value, agent, Trace(i, ClaudeBin).value,
        TaskQueue(i), i.ensemble.GetOr("default"), ParseCostProfile(Trace(i, CostProfile).value));
      Returns(Explained(config, map s | s in SETTINGS :: Trace(i, s).source))
  }

  // ---------------------------------------------------------------------------------------
  // The layers
  // ---------------------------------------------------------------------------------------

  datatype Layer = Layer(source: Source, value: Value)

  predicate Flagged(s: Setting) {
    !s.ClaudeBin? && !s.CostProfile?
  }

  predicate Connection(s: Setting) {
    s.Address? || s.Namespace? || s.ApiKey? || s.CertPath? || s.KeyPath?
  }

  /** In dev mode neither the environment nor the Temporal CLI may say where to connect. */
  predicate Carved(i: Inputs, s: Setting, source: Source) {
    i.dev && ((source.Env? && (s.Address? || s.Namespace?)) || (source.TemporalCli? && s.Namespace?))
  }

  function DefaultOf(i: Inputs, s: Setting): Value {
    match s
    case Address => Some("localhost:7233")
    case Namespace => Some(if i.dev then "agent-tempo-dev" else "default")
    case DefaultAgent => Some("claude")
    case CostProfile => Some("local")
    case ApiKey | CertPath | KeyPath | ClaudeBin => None
  }

  function Only(b: bool, v: Value): Value {
    if b then v else None
  }

  /** Where a setting may come from, highest priority first. */
  function Layers(i: Inputs, s: Setting): seq<Layer> {
    [ Layer(Flag, Only(Flagged(s), i.flags(s))),
      Layer(Env, Only(!Carved(i, s, Env), i.env(s))),
      Layer(File, i.file(s)),
      Layer(TemporalCli, Only(Connection(s) && !Carved(i, s, TemporalCli), i.temporalCli(s))),
      Layer(Default, DefaultOf(i, s)) ]
  }

  /** `value` comes from `source`, and every layer above it is unset or empty. */
  predicate Highest(layers: seq<Layer>, source: Source, value: Value) {
    if forall l <- layers :: !Set(l.value) then source.NoSource? && value.None?
    else exists k | 0 <= k < |layers| ::
           layers[k] == Layer(source, value) && Set(value) && forall j | 0 <= j < k :: !Set(layers[j].value)
  }

  /** Every setting is attributed to the highest-priority layer that holds a value for it. */
  lemma TraceIsHighest(i: Inputs, s: Setting)
    ensures Highest(Layers(i, s), Trace(i, s).source, Trace(i, s).value)
  {
    var layers, t := Layers(i, s), Trace(i, s);
    TraceByLayers(i, s);
    hide Layers, Trace, DefaultOf;
    if !t.source.NoSource? {
      var k := match t.source
        case Flag => 0
        case Env => 1
        case File => 2
        case TemporalCli => 3
        case Default => 4;
      assert layers[k] == Layer(t.source, t.value) && layers[k] in layers;
    }
  }

  lemma TraceByLayers(i: Inputs, s: Setting)
    ensures var layers, t := Layers(i, s), Trace(i, s);
      && |layers| == 5
      && layers[0].source == Flag && layers[1].source == Env && layers[2].source == File
      && layers[3].source == TemporalCli && layers[4].source == Default
      && t == if Set(layers[0].value) then Sourced(layers[0].value, Flag)
              else if Set(layers[1].value) then Sourced(layers[1].value, Env)
              else if Set(layers[2].value) then Sourced(layers[2].value, File)
              else if Set(layers[3].value) then Sourced(layers[3].value, TemporalCli)
              else if Set(layers[4].value) then Sourced(layers[4].value, Default)
              else Sourced(None, NoSource)
  {
  }

  /**
   * The resolvers agree: `getConfig` returns a configuration exactly when the ensemble name
   * is valid and `getConfigWithSources` returns the same one. (`getConfigWithSources` does
   * not check the name, so it alone still answers for a bad one.)
   */
  lemma ResolversAgree(i: Inputs, c: Config)
    ensures GetConfig(i) == Returns(c) <==>
      && GetConfigWithSources(i).Returns? && GetConfigWithSources(i).value.config == c
      && EnsembleOk(i.ensemble.GetOr("default"))
  {
  }

  function ValueOf(c: Config, s: Setting): Value {
    match s
    case Address => Some(c.address)
    case Namespace => Some(c.namespace_)
    case ApiKey => c.apiKey
    case CertPath => c.certPath
    case KeyPath => c.keyPath
    case DefaultAgent => Some(c.defaultAgent)
    case ClaudeBin => c.claudeBin
    case CostProfile => Some(c.costProfile)
  }

  lemma ValueIsTraced(i: Inputs, s: Setting)
    requires GetConfig(i).Returns?
    ensures s.CostProfile? || Trace(i, s).value == ValueOf(GetConfig(i).value, s)
    ensures ParseCostProfile(Trace(i, CostProfile).value) == GetConfig(i).value.costProfile
  {
  }

  /**
   * What is shown is what runs: each value is that of the source it is shown with, the
   * highest layer that holds one. A cost profile that is not known is replaced by `local`.
   */
  lemma ShownIsWhatRuns(i: Inputs, s: Setting)
    requires GetConfig(i).Returns?
    ensures GetConfigWithSources(i).Returns? && GetConfigWithSources(i).value.config == GetConfig(i).value
    ensures s in GetConfigWithSources(i).value.sources
    ensures var value, source := ValueOf(GetConfig(i).value, s), GetConfigWithSources(i).value.sources[s];
      || Highest(Layers(i, s), source, value)
      || (s.CostProfile? && value == Some("local")
          && exists v: string :: v !in COST_PROFILES && Highest(Layers(i, s), source, Some(v)))
  {
    ResolversAgree(i, GetConfig(i).value);
    ValueIsTraced(i, s);
    TraceIsHighest(i, s);
    assert Trace(i, CostProfile).value.Some?;
    hide Layers, Highest, GetConfig;
  }

  /** The agents and cost profiles there are. */
  predicate KnownAgent(agent: string) {
    || agent == "claude" || agent == "copilot" || agent == "mock" || agent == "claude-api" || agent == "opencode"
    || agent == "claude-code-headless" || agent == "pi"
  }

  predicate KnownProfile(profile: string) {
    profile == "local" || profile == "cloud"
  }

  /** Letters and digits at both ends, dots, underscores and hyphens between, 64 characters at most. */
  predicate GoodName(name: string) {
    && 1 <= |name| <= 64
    && forall k | 0 <= k < |name| ::
         || 'a' <= name[k] <= 'z' || 'A' <= name[k] <= 'Z' || '0' <= name[k] <= '9'
         || (0 < k < |name| - 1 && (name[k] == '.' || name[k] == '_' || name[k] == '-'))
  }

  lemma GoodNameIsOk(name: string)
    ensures GoodName(name) <==> EnsembleOk(name)
  {
    if EnsembleOk(name) {
      forall k | 0 <= k < |name| ensures AlphaNumeric(name[k]) || (0 < k < |name| - 1 && name[k] in "._-") {
        assert name[k] in name;
      }
    }
  }

  /**
   * When `getConfig` answers, and the settings that are shown without a source: the first agent
   * named must be a known one and the ensemble's name a good one; queue and ensemble are those of
   * the environment, empty ones included; and the profile is the first one named, if it is known.
   */
  lemma ConfigIsExact(i: Inputs)
    ensures GetConfig(i).Returns? <==>
      && GoodName(if i.ensemble.Some? then i.ensemble.value else "default")
      && exists agent, source :: KnownAgent(agent) && Highest(Layers(i, DefaultAgent), source, Some(agent))
    ensures GetConfig(i).Returns? ==>
      var c := GetConfig(i).value;
      && c.ensemble == (if i.ensemble.Some? then i.ensemble.value else "default")
      && c.taskQueue == (if i.taskQueue.Some? then i.taskQueue.value
                         else if i.dev then "agent-tempo-dev" else "agent-tempo")
      && exists profile, source :: Highest(Layers(i, CostProfile), source, Some(profile))
           && c.costProfile == if KnownProfile(profile) then profile else "local"
  {
    var agent, profile := Trace(i, DefaultAgent), Trace(i, CostProfile);
    TraceIsHighest(i, DefaultAgent);
    TraceIsHighest(i, CostProfile);
    GoodNameIsOk(i.ensemble.GetOr("default"));
    AlwaysTraced(i);
    hide Highest, Layers, Trace, GoodName, EnsembleOk;
    AgentDecides(i);
    if a, source :| KnownAgent(a) && Highest(Layers(i, DefaultAgent), source, Some(a)) {
      HighestOnce(Layers(i, DefaultAgent), source, Some(a), agent.source, agent.value);
    }
    assert Highest(Layers(i, DefaultAgent), agent.source, Some(agent.value.value));
    assert Highest(Layers(i, CostProfile), profile.source, Some(profile.value.value));
    if GetConfig(i).Returns? {
      ProfileIs(i);
    }
  }

  lemma AlwaysTraced(i: Inputs)
    ensures Trace(i, DefaultAgent).value.Some? && Trace(i, CostProfile).value.Some?
  {
  }

  lemma AgentDecides(i: Inputs)
    requires Trace(i, DefaultAgent).value.Some?
    ensures GetConfig(i).Returns? <==>
      EnsembleOk(i.ensemble.GetOr("default")) && KnownAgent(Trace(i, DefaultAgent).value.value)
    ensures GetConfig(i).Returns? ==>
      GetConfig(i).value.ensemble == i.ensemble.GetOr("default") && GetConfig(i).value.taskQueue == TaskQueue(i)
  {
    hide EnsembleOk;
  }

  lemma ProfileIs(i: Inputs)
    requires GetConfig(i).Returns? && Trace(i, CostProfile).value.Some?
    ensures var profile := Trace(i, CostProfile).value.value;
      GetConfig(i).value.costProfile == if KnownProfile(profile) then profile else "local"
  {
    hide EnsembleOk;
  }

  lemma HighestOnce(layers: seq<Layer>, a: Source, v: Value, b: Source, w: Value)
    requires Highest(layers, a, v) && Highest(layers, b, w)
    ensures v == w
  {
  }
}
