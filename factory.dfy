/** `ModelFactory.create_model`: agent role -> profile -> provider unit ->
    model handle. Missing configuration is a soft failure (`None`); failures
    of the provider unit are raised, classified by exception class. */
module Factory {
  import opened Runtime
  import opened Settings
  import opened Providers
  import OpenAI
  import MockProvider

  /** What `create_model` returns (a model or `None`) or raises, with the
      records it logs. */
  datatype Resolution = Resolution(outcome: Completion<Option<Model>>, log: seq<LogRecord>)

  function AgentNotFound(agentType: string): string
  {
    "Agent configuration not found: " + agentType
  }

  function UnsupportedProvider(name: string): string
  {
    "Unsupported provider specified: '" + name + "'. Could not find provider module '" + ProviderPackage + name + "'"
  }

  function NoCreateModel(name: string): string
  {
    "Provider module '" + name + "' does not have a 'create_model' function"
  }

  function Unexpected(name: string, message: string): string
  {
    "An unexpected error occurred while loading provider '" + name + "': " + message
  }

  /** `profiles.get(name, None)`: dict keys are strings in this model, so a
      name of another hashable type finds nothing here; a list or dict is
      unhashable and raises `TypeError`. */
  function FindProfile(profiles: map<string, ProfileConfig>, name: Value): (r: Completion<Option<ProfileConfig>>)
    ensures r.Normal? && r.value.Some? <==> name.Str? && name.s in profiles
    ensures r.Normal? && r.value.Some? ==> r.value.value == profiles[name.s]
    ensures r.Raised? <==> name.List? || name.Dict?
  {
    match name
    case Str(s) => if s in profiles then Normal(Some(profiles[s])) else Normal(None)
    case List(_) => Raised(Exn(TypeError, "unhashable type: 'list'", None))
    case Dict(_) => Raised(Exn(TypeError, "unhashable type: 'dict'", None))
    case _ => Normal(None)
  }

  /** The body of the `try`: import the unit, fetch `create_model`, call it. */
  function TryCreate(providers: Registry, name: string, profile: ProfileConfig): (a: Resolution)
    // only the successful import is logged, at debug level
    ensures a.log == [] || (|a.log| == 1 && a.log[0].level == Debug)
    // an unknown name fails as the import does
    ensures name !in providers ==> a.outcome.Raised? && a.outcome.exn.kind == ModuleNotFoundError
    // a result is always the unit's own `create_model` result for the profile
    ensures a.outcome.Normal? ==>
      && name in providers && providers[name].Loaded? && providers[name].createModel.Some?
      && a.outcome.value.Some?
      && providers[name].createModel.value(profile) == Normal(a.outcome.value.value)
  {
    if name !in providers then
      Resolution(Raised(Exn(ModuleNotFoundError, "No module named '" + ProviderPackage + name + "'", None)), [])
    else
      match providers[name]
      case ImportFails(e) => Resolution(Raised(e), [])
      case Loaded(entry) =>
        var imported := [LogRecord(Debug, "Successfully imported provider module: " + ProviderPackage + name)];
        match entry
        case None => Resolution(Raised(Exn(ValueError, NoCreateModel(name), None)), imported)
        case Some(createModel) =>
          match createModel(profile)
          case Normal(m) => Resolution(Normal(Some(m)), imported)
          case Raised(e) => Resolution(Raised(e), imported)
  }

  /** The three `except` clauses, tried in order on the exception's class. */
  function Classify(name: string, e: Exn): (w: Exn)
    // the original is kept as the cause
    ensures w.cause == Some(e)
    // a ValueError exactly for the import and attribute families, a RuntimeError otherwise
    ensures w.kind == ValueError <==> IsInstance(e.kind, ImportError) || e.kind == AttributeError
    ensures w.kind != ValueError ==> w.kind == RuntimeError && w.message == Unexpected(name, e.message)
  {
    if IsInstance(e.kind, ImportError) then Exn(ValueError, UnsupportedProvider(name), Some(e))
    else if IsInstance(e.kind, AttributeError) then Exn(ValueError, NoCreateModel(name), Some(e))
    else Exn(RuntimeError, Unexpected(name, e.message), Some(e))
  }

  /** Everything after the profile is found: the debug record, the attempt,
      and the mapping of its failure onto the error the caller sees. */
  function FromProfile(profile: ProfileConfig, providers: Registry): (r: Resolution)
    // a found profile never gives None
    ensures r.outcome != Normal(None)
    // only ValueError or RuntimeError escapes, logged as the last record
    ensures r.outcome.Raised? ==>
      && (r.outcome.exn.kind == ValueError || r.outcome.exn.kind == RuntimeError)
      && |r.log| > 0 && r.log[|r.log| - 1] == LogRecord(Error, r.outcome.exn.message)
  {
    var usingProfile := LogRecord(Debug, "Using profile: " + Text(profile.provider) + ":" + Text(profile.model));
    var name := Text(profile.provider);
    var attempt := TryCreate(providers, name, profile);
    match attempt.outcome
    case Normal(m) => Resolution(Normal(m), [usingProfile] + attempt.log)
    case Raised(e) =>
      var wrapped := Classify(name, e);
      Resolution(Raised(wrapped), [usingProfile] + attempt.log + [LogRecord(Error, wrapped.message)])
  }

  /** A factory holds the configuration it was constructed with and only
      reads it. */
  datatype ModelFactory = ModelFactory(config: Config) {

    function CreateModel(agentType: string, providers: Registry): (r: Resolution)
      // a missing role is logged once, by name, and gives None
      ensures agentType !in config.agents ==>
        r == Resolution(Normal(None), [LogRecord(Error, AgentNotFound(agentType))])
      // None is returned exactly when the role or its profile is missing
      ensures r.outcome == Normal(None) <==>
        agentType !in config.agents ||
        FindProfile(config.profiles, config.agents[agentType].profile) == Normal(None)
      // whatever is raised past the profile lookup is a ValueError or a RuntimeError
      ensures r.outcome.Raised? && r.outcome.exn.kind != TypeError ==>
        r.outcome.exn.kind == ValueError || r.outcome.exn.kind == RuntimeError
      // a TypeError comes only from an unhashable profile name
      ensures r.outcome.Raised? && r.outcome.exn.kind == TypeError ==>
        agentType in config.agents &&
        (config.agents[agentType].profile.List? || config.agents[agentType].profile.Dict?)
    {
      if agentType !in config.agents then
        Resolution(Normal(None), [LogRecord(Error, AgentNotFound(agentType))])
      else
        match FindProfile(config.profiles, config.agents[agentType].profile)
        case Raised(e) => Resolution(Raised(e), [])
        case Normal(None) => Resolution(Normal(None), [])
        case Normal(Some(profile)) => FromProfile(profile, providers)
    }
  }

  // ---------------------------------------------------------------------------
  // Resolution properties
  // ---------------------------------------------------------------------------

  /** The profile a role resolves to, when the role and its profile exist. */
  predicate Resolves(config: Config, agentType: string, profile: ProfileConfig)
  {
    agentType in config.agents &&
    FindProfile(config.profiles, config.agents[agentType].profile) == Normal(Some(profile))
  }

  /** For a role that resolves, the result is that of its profile. */
  lemma ResolvedIsFromProfile(config: Config, agentType: string, providers: Registry, profile: ProfileConfig)
    requires Resolves(config, agentType, profile)
    ensures ModelFactory(config).CreateModel(agentType, providers) == FromProfile(profile, providers)
  {
  }

  /** A missing role never consults a provider: the result is the same for
      every registry, and exactly one error is logged. */
  lemma MissingAgentIgnoresProviders(config: Config, agentType: string, a: Registry, b: Registry)
    requires agentType !in config.agents
    ensures ModelFactory(config).CreateModel(agentType, a) == ModelFactory(config).CreateModel(agentType, b)
    ensures CountLevel(ModelFactory(config).CreateModel(agentType, a).log, Error) == 1
  {
    assert [LogRecord(Error, AgentNotFound(agentType))][..0] == [];
  }

  /** A role whose profile is missing returns None without raising and
      without logging an error, whatever the registry. */
  lemma MissingProfileIsSoft(config: Config, agentType: string, providers: Registry)
    requires agentType in config.agents
    requires var name := config.agents[agentType].profile; !(name.Str? && name.s in config.profiles)
    requires var name := config.agents[agentType].profile; !name.List? && !name.Dict?
    ensures ModelFactory(config).CreateModel(agentType, providers) == Resolution(Normal(None), [])
  {
  }

  /** A provider name with no importable unit raises ValueError naming the
      provider and the module path `tmuxbot.providers.<name>`. */
  lemma MissingUnitIsUnsupported(config: Config, agentType: string, providers: Registry, profile: ProfileConfig)
    requires Resolves(config, agentType, profile)
    requires Text(profile.provider) !in providers
    ensures var r := ModelFactory(config).CreateModel(agentType, providers);
      && r.outcome.Raised?
      && r.outcome.exn.kind == ValueError
      && r.outcome.exn.message == UnsupportedProvider(Text(profile.provider))
      && r.outcome.exn.cause.Some? && r.outcome.exn.cause.value.kind == ModuleNotFoundError
  {
    ResolvedIsFromProfile(config, agentType, providers, profile);
    var name := Text(profile.provider);
    assert TryCreate(providers, name, profile).outcome.exn.kind == ModuleNotFoundError;
  }

  /** A unit without a usable `create_model` raises RuntimeError, not
      ValueError: the ValueError raised inside the `try` is caught by the
      generic `except Exception`. */
  lemma MissingEntryIsRuntimeError(config: Config, agentType: string, providers: Registry, profile: ProfileConfig)
    requires Resolves(config, agentType, profile)
    requires Text(profile.provider) in providers && providers[Text(profile.provider)] == Loaded(None)
    ensures var name := Text(profile.provider);
      var r := ModelFactory(config).CreateModel(agentType, providers);
      && r.outcome.Raised?
      && r.outcome.exn.kind == RuntimeError
      && r.outcome.exn.message == Unexpected(name, NoCreateModel(name))
  {
    ResolvedIsFromProfile(config, agentType, providers, profile);
    var name := Text(profile.provider);
    assert TryCreate(providers, name, profile).outcome == Raised(Exn(ValueError, NoCreateModel(name), None));
  }

  /** When the provider's own `create_model` raises, the error is classified by
      its class, not by where it came from: an ImportError (or subclass)
      becomes the "unsupported provider" ValueError, an AttributeError the
      "no create_model" ValueError, anything else (the provider's own
      ValueError and ConnectionError included) a RuntimeError carrying the
      provider's name and the original message. The original is the cause. */
  lemma ProviderErrorClassified(config: Config, agentType: string, providers: Registry, profile: ProfileConfig,
                                createModel: CreateModelFn)
    requires Resolves(config, agentType, profile)
    requires Text(profile.provider) in providers && providers[Text(profile.provider)] == Loaded(Some(createModel))
    requires createModel(profile).Raised?
    ensures var name := Text(profile.provider);
      var e := createModel(profile).exn;
      var r := ModelFactory(config).CreateModel(agentType, providers);
      && r.outcome.Raised?
      && r.outcome.exn.cause == Some(e)
      && (IsInstance(e.kind, ImportError) ==>
            r.outcome.exn == Exn(ValueError, UnsupportedProvider(name), Some(e)))
      && (e.kind == AttributeError ==>
            r.outcome.exn == Exn(ValueError, NoCreateModel(name), Some(e)))
      && (!IsInstance(e.kind, ImportError) && e.kind != AttributeError ==>
            r.outcome.exn == Exn(RuntimeError, Unexpected(name, e.message), Some(e)))
  {
    ResolvedIsFromProfile(config, agentType, providers, profile);
    var name := Text(profile.provider);
    assert TryCreate(providers, name, profile).outcome == Raised(createModel(profile).exn);
  }

  /** A unit whose own import raises is classified like a provider's error:
      an `ImportError` gives the unsupported-provider `ValueError`, an
      `AttributeError` the missing-function `ValueError`, anything else
      `RuntimeError`; no successful import is logged. By
      `ResolvedIsFromProfile` this is the result for every role resolving to
      `profile`. */
  lemma ImportFailureClassified(profile: ProfileConfig, providers: Registry, e: Exn)
    requires Text(profile.provider) in providers && providers[Text(profile.provider)] == ImportFails(e)
    ensures var name := Text(profile.provider);
      var r := FromProfile(profile, providers);
      && r.outcome.Raised?
      && (IsInstance(e.kind, ImportError) ==>
            r.outcome.exn == Exn(ValueError, UnsupportedProvider(name), Some(e)))
      && (e.kind == AttributeError ==>
            r.outcome.exn == Exn(ValueError, NoCreateModel(name), Some(e)))
      && (!IsInstance(e.kind, ImportError) && e.kind != AttributeError ==>
            r.outcome.exn == Exn(RuntimeError, Unexpected(name, e.message), Some(e)))
      // the profile in use, then the error: no import is reported
      && |r.log| == 2 && r.log[0].level == Debug && r.log[1] == LogRecord(Error, r.outcome.exn.message)
  {
    ImportFailureResolution(profile, providers, e);
    ClassifyCases(Text(profile.provider), e);
  }

  /** The import failure goes through the `except` clauses, after the debug
      record of the profile in use. */
  lemma ImportFailureResolution(profile: ProfileConfig, providers: Registry, e: Exn)
    requires Text(profile.provider) in providers && providers[Text(profile.provider)] == ImportFails(e)
    ensures var w := Classify(Text(profile.provider), e);
      FromProfile(profile, providers) ==
        Resolution(Raised(w), [LogRecord(Debug, "Using profile: " + Text(profile.provider) + ":" + Text(profile.model)),
                               LogRecord(Error, w.message)])
  {
    assert TryCreate(providers, Text(profile.provider), profile) == Resolution(Raised(e), []);
  }

  /** The three `except` clauses by exception class, the original as cause. */
  lemma ClassifyCases(name: string, e: Exn)
    ensures IsInstance(e.kind, ImportError) ==> Classify(name, e) == Exn(ValueError, UnsupportedProvider(name), Some(e))
    ensures e.kind == AttributeError ==> Classify(name, e) == Exn(ValueError, NoCreateModel(name), Some(e))
    ensures !IsInstance(e.kind, ImportError) && e.kind != AttributeError ==>
      Classify(name, e) == Exn(RuntimeError, Unexpected(name, e.message), Some(e))
  {
  }

  /** On success the handle is exactly what the provider's `create_model`
      returns for the resolved profile. */
  lemma SuccessIsProviderResult(config: Config, agentType: string, providers: Registry, profile: ProfileConfig,
                                createModel: CreateModelFn)
    requires Resolves(config, agentType, profile)
    requires Text(profile.provider) in providers && providers[Text(profile.provider)] == Loaded(Some(createModel))
    requires createModel(profile).Normal?
    ensures ModelFactory(config).CreateModel(agentType, providers).outcome == Normal(Some(createModel(profile).value))
  {
    ResolvedIsFromProfile(config, agentType, providers, profile);
    assert TryCreate(providers, Text(profile.provider), profile).outcome == Normal(Some(createModel(profile).value));
  }

  /** Every raised error except the unhashable-profile-name TypeError is logged
      as an error, once, with the raised message. */
  lemma RaisedIsLogged(config: Config, agentType: string, providers: Registry)
    requires var r := ModelFactory(config).CreateModel(agentType, providers);
      r.outcome.Raised? && r.outcome.exn.kind != TypeError
    ensures var r := ModelFactory(config).CreateModel(agentType, providers);
      |r.log| > 0 && r.log[|r.log| - 1] == LogRecord(Error, r.outcome.exn.message)
    ensures CountLevel(ModelFactory(config).CreateModel(agentType, providers).log, Error) == 1
  {
    var profile := FindProfile(config.profiles, config.agents[agentType].profile).value.value;
    ResolvedIsFromProfile(config, agentType, providers, profile);
    OneErrorLogged(profile, providers);
  }

  /** On a raise, the log is the profile record, what the `try` body logged,
      then the error. */
  lemma RaisedLogShape(profile: ProfileConfig, providers: Registry)
    requires FromProfile(profile, providers).outcome.Raised?
    ensures var r := FromProfile(profile, providers);
      r.log == [LogRecord(Debug, "Using profile: " + Text(profile.provider) + ":" + Text(profile.model))]
               + TryCreate(providers, Text(profile.provider), profile).log
               + [LogRecord(Error, r.outcome.exn.message)]
  {
  }

  /** A log none of whose records has `level` counts zero of them. */
  lemma {:induction false} NoneAtLevel(log: seq<LogRecord>, level: Level)
    requires forall k :: 0 <= k < |log| ==> log[k].level != level
    ensures CountLevel(log, level) == 0
    decreases |log|
  {
    if log != [] {
      NoneAtLevel(log[..|log| - 1], level);
    }
  }

  /** A raise from a found profile carries exactly one error record: the
      records before it are debug records. */
  lemma OneErrorLogged(profile: ProfileConfig, providers: Registry)
    requires FromProfile(profile, providers).outcome.Raised?
    ensures CountLevel(FromProfile(profile, providers).log, Error) == 1
  {
    var r := FromProfile(profile, providers);
    var attempt := TryCreate(providers, Text(profile.provider), profile);
    RaisedLogShape(profile, providers);
    var before := [LogRecord(Debug, "Using profile: " + Text(profile.provider) + ":" + Text(profile.model))] + attempt.log;
    assert r.log[..|r.log| - 1] == before;
    assert forall k :: 0 <= k < |before| ==> before[k].level == Debug;
    NoneAtLevel(before, Error);
  }

  // ---------------------------------------------------------------------------
  // The repository's providers
  // ---------------------------------------------------------------------------

  /** The one provider unit the repository ships, `tmuxbot.providers.openai`. */
  function Installed(sdk: OpenAI.Sdk): Registry
  {
    map["openai" := Loaded(Some(p => OpenAI.CreateModel(sdk, p)))]
  }

  /** A configuration with one role, "primary", bound to one profile, "p1". */
  function Single(profile: ProfileConfig): (c: Config)
    ensures Resolves(c, "primary", profile)
  {
    Config(map["p1" := profile], map["primary" := AgentConfig(Str("p1"), Null, Null)], Int(DefaultMaxHistory), Int(DefaultTimeout))
  }

  /** Role "primary" bound to profile "p1" with provider "openai": resolution
      returns the SDK's chat model built from that profile's fields. */
  lemma OpenAIScenario(sdk: OpenAI.Sdk, apiKey: string, model: string, baseUrl: Value)
    requires apiKey != "" && model != ""
    requires sdk.providerFailure(baseUrl, Str(apiKey)).None?
    requires sdk.modelFailure(Str(model), OpenAIProvider(baseUrl, Str(apiKey)), Null).None?
    ensures var profile := ProfileConfig(Str("openai"), Str(apiKey), Str(model), baseUrl, Null);
      var config := Single(profile);
      ModelFactory(config).CreateModel("primary", Installed(sdk)).outcome ==
        Normal(Some(OpenAIChatModel(Str(model), OpenAIProvider(baseUrl, Str(apiKey)), Null)))
  {
    var profile := ProfileConfig(Str("openai"), Str(apiKey), Str(model), baseUrl, Null);
    SuccessIsProviderResult(
      Single(profile),
      "primary", Installed(sdk), profile, p => OpenAI.CreateModel(sdk, p));
  }

  /** With the test double registered, the handle's recorded provider, model,
      key, URL and settings are the profile's (settings `None` included). */
  lemma MockScenario(profile: ProfileConfig)
    requires Truthy(profile.apiKey) && Truthy(profile.model)
    ensures var config := Single(profile);
      var providers := map[Text(profile.provider) := Loaded(Some(MockProvider.CreateModel))];
      var r := ModelFactory(config).CreateModel("primary", providers);
      r.outcome.Normal? && r.outcome.value.Some? && MockProvider.ProfileOf(r.outcome.value.value) == profile
  {
    SuccessIsProviderResult(Single(profile), "primary", map[Text(profile.provider) := Loaded(Some(MockProvider.CreateModel))],
                            profile, MockProvider.CreateModel);
    MockProvider.MockRoundTrip(profile);
  }

  /** The provider's own validation errors reach the caller as RuntimeError:
      an OpenAI profile with an empty key fails with the unexpected-error
      message that carries "API key is required". */
  lemma EmptyKeyScenario(sdk: OpenAI.Sdk)
    ensures var profile := ProfileConfig(Str("openai"), Str(""), Str("m"), Null, Null);
      var config := Single(profile);
      ModelFactory(config).CreateModel("primary", Installed(sdk)).outcome.exn ==
        Exn(RuntimeError, Unexpected("openai", OpenAI.ApiKeyRequired), Some(Exn(ValueError, OpenAI.ApiKeyRequired, None)))
  {
    var profile := ProfileConfig(Str("openai"), Str(""), Str("m"), Null, Null);
    ProviderErrorClassified(Single(profile), "primary", Installed(sdk), profile, p => OpenAI.CreateModel(sdk, p));
  }

  /** A registered `create_model_with_error` always surfaces as RuntimeError. */
  lemma AlwaysFailingScenario(profile: ProfileConfig)
    ensures var config := Single(profile);
      var providers := map[Text(profile.provider) := Loaded(Some(MockProvider.CreateModelWithError))];
      ModelFactory(config).CreateModel("primary", providers).outcome.exn.kind == RuntimeError
  {
    ProviderErrorClassified(Single(profile), "primary", map[Text(profile.provider) := Loaded(Some(MockProvider.CreateModelWithError))],
                            profile, MockProvider.CreateModelWithError);
  }
}
