/** Configuration records and the part of `load_config` that turns the loaded
    configuration document into a `Config`: the two environment overrides and
    the conversion of the `profiles` and `agents` sections into records. */
module Settings {
  import opened Runtime

  /** One provider endpoint. The dataclass does not check field types, so each
      field holds whatever the document (or a caller) put there. */
  datatype ProfileConfig = ProfileConfig(
    provider: Value,
    apiKey: Value,
    model: Value,
    baseUrl: Value,
    settings: Value)

  /** An agent role bound to a profile name. */
  datatype AgentConfig = AgentConfig(profile: Value, instructions: Value, fallbacks: Value)

  datatype Config = Config(
    profiles: map<string, ProfileConfig>,
    agents: map<string, AgentConfig>,
    maxHistory: Value,
    conversationTimeout: Value)

  const MaxHistoryKey := "max_history"
  const TimeoutKey := "conversation_timeout"
  const MaxHistoryVariable := "TMUXBOT_MAX_HISTORY"
  const TimeoutVariable := "TMUXBOT_CONVERSATION_TIMEOUT"
  const DefaultMaxHistory := 100
  const DefaultTimeout := 300

  // ---------------------------------------------------------------------------
  // Environment overrides
  // ---------------------------------------------------------------------------

  datatype Overridden = Overridden(document: seq<(string, Value)>, log: seq<LogRecord>)

  /** True when the variable's value overrides the document: it is set, parses
      as an integer and that integer is positive. */
  predicate Overrides(env: Option<string>)
  {
    env.Some? && ParseInt(env.value).Some? && ParseInt(env.value).value > 0
  }

  /** The environment override of one scalar setting: a set, non-empty value
      that parses to a positive integer replaces `key` in the document; an
      unparsable one is reported with a warning; anything else is ignored. */
  function EnvOverride(document: seq<(string, Value)>, key: string, variable: string, env: Option<string>)
    : (r: Overridden)
    ensures Overrides(env) ==>
      && Get(r.document, key) == Some(Int(ParseInt(env.value).value))
      && (forall other :: other != key ==> Get(r.document, other) == Get(document, other))
    ensures !Overrides(env) ==> r.document == document
    ensures r.log != [] <==> env.Some? && env.value != "" && ParseInt(env.value).None?
    ensures r.log != [] ==> r.log == [LogRecord(Warning, "Invalid " + variable + " value: " + env.value)]
  {
    PutLaws(document, key, if Overrides(env) then Int(ParseInt(env.value).value) else Null);
    if env.None? || env.value == "" then Overridden(document, [])
    else
      match ParseInt(env.value)
      case None => Overridden(document, [LogRecord(Warning, "Invalid " + variable + " value: " + env.value)])
      case Some(n) => if n > 0 then Overridden(Put(document, key, Int(n)), []) else Overridden(document, [])
  }

  // ---------------------------------------------------------------------------
  // Records from document entries
  // ---------------------------------------------------------------------------

  /** The `TypeError` that subscripting `v` with a string raises when `v` is
      not a dict (CPython 3.11 wording). */
  function SubscriptError(v: Value): Exn
    requires !v.Dict?
  {
    var message :=
      match v
      case Str(_) => "string indices must be integers, not 'str'"
      case List(_) => "list indices must be integers or slices, not str"
      case _ => "'" + TypeName(v) + "' object is not subscriptable";
    Exn(TypeError, message, None)
  }

  /** `info[key]`. */
  function Subscript(info: Value, key: string): (r: Completion<Value>)
    ensures r.Normal? <==> info.Dict? && Get(info.entries, key).Some?
    ensures r.Raised? && info.Dict? ==> r.exn == Exn(KeyError, "'" + key + "'", None)
    ensures r.Raised? && !info.Dict? ==> r.exn.kind == TypeError
  {
    if !info.Dict? then Raised(SubscriptError(info))
    else
      match Get(info.entries, key)
      case Some(v) => Normal(v)
      case None => Raised(Exn(KeyError, "'" + key + "'", None))
  }

  predicate HasKey(info: Value, key: string)
  {
    info.Dict? && Get(info.entries, key).Some?
  }

  /** `ProfileConfig(provider=info["provider"], api_key=info["api_key"],
      model=info["model"], base_url=info.get("base_url"),
      settings=info.get("settings"))`, arguments evaluated left to right. */
  function ProfileFrom(info: Value): (r: Completion<ProfileConfig>)
    ensures r.Normal? <==> HasKey(info, "provider") && HasKey(info, "api_key") && HasKey(info, "model")
    ensures r.Normal? ==> r.value == ProfileConfig(
      GetOr(info.entries, "provider", Null), GetOr(info.entries, "api_key", Null),
      GetOr(info.entries, "model", Null), GetOr(info.entries, "base_url", Null),
      GetOr(info.entries, "settings", Null))
    ensures r.Raised? ==> (r.exn.kind == TypeError <==> !info.Dict?)
    ensures r.Raised? && info.Dict? ==>
      r.exn.kind == KeyError &&
      r.exn.message == (if !HasKey(info, "provider") then "'provider'"
                        else if !HasKey(info, "api_key") then "'api_key'"
                        else "'model'")
  {
    var provider :- Subscript(info, "provider");
    var apiKey :- Subscript(info, "api_key");
    var model :- Subscript(info, "model");
    Normal(ProfileConfig(provider, apiKey, model,
      GetOr(info.entries, "base_url", Null), GetOr(info.entries, "settings", Null)))
  }

  /** `AgentConfig(profile=info["profile"], instructions=info.get("instructions"),
      fallbacks=info.get("fallbacks"))`. */
  function AgentFrom(info: Value): (r: Completion<AgentConfig>)
    ensures r.Normal? <==> HasKey(info, "profile")
    ensures r.Normal? ==> r.value == AgentConfig(
      GetOr(info.entries, "profile", Null), GetOr(info.entries, "instructions", Null),
      GetOr(info.entries, "fallbacks", Null))
    ensures r.Raised? ==> (r.exn.kind == TypeError <==> !info.Dict?)
    ensures r.Raised? && info.Dict? ==> r.exn == Exn(KeyError, "'profile'", None)
  {
    var profile :- Subscript(info, "profile");
    Normal(AgentConfig(profile, GetOr(info.entries, "instructions", Null), GetOr(info.entries, "fallbacks", Null)))
  }

  /** `config_data.get(key, {}).items()`: a missing section is empty; a
      section that is not a dict has no `items` and raises `AttributeError`. */
  function Section(document: seq<(string, Value)>, key: string): (r: Completion<seq<(string, Value)>>)
    ensures r.Normal? <==> Get(document, key).None? || Get(document, key).value.Dict?
    ensures r.Normal? ==> r.value == (if Get(document, key).None? then [] else Get(document, key).value.entries)
    ensures r.Raised? ==> r.exn.kind == AttributeError
  {
    match Get(document, key)
    case None => Normal([])
    case Some(v) =>
      if v.Dict? then Normal(v.entries)
      else Raised(Exn(AttributeError, "'" + TypeName(v) + "' object has no attribute 'items'", None))
  }

  /** The loop `for name, info in entries: result[name] = convert(info)`,
      from item `i` on, with `acc` the dict built so far. */
  function ConvertFrom<R>(entries: seq<(string, Value)>, convert: Value -> Completion<R>, i: nat, acc: map<string, R>)
    : (r: Completion<map<string, R>>)
    requires i <= |entries|
    // what the loop raises is what converting one of the remaining entries raised
    ensures r.Raised? ==> exists j :: i <= j < |entries| && convert(entries[j].1) == Raised(r.exn)
    decreases |entries| - i
  {
    if i == |entries| then Normal(acc)
    else
      match convert(entries[i].1)
      case Raised(e) => Raised(e)
      case Normal(x) => ConvertFrom(entries, convert, i + 1, acc[entries[i].0 := x])
  }

  /** The conversion succeeds exactly when every remaining entry converts. */
  lemma {:induction false} ConvertSucceedsIff<R>(
    entries: seq<(string, Value)>, convert: Value -> Completion<R>, i: nat, acc: map<string, R>)
    requires i <= |entries|
    ensures ConvertFrom(entries, convert, i, acc).Normal? <==>
      forall j :: i <= j < |entries| ==> convert(entries[j].1).Normal?
    decreases |entries| - i
  {
    if i < |entries| && convert(entries[i].1).Normal? {
      ConvertSucceedsIff(entries, convert, i + 1, acc[entries[i].0 := convert(entries[i].1).value]);
    }
  }

  /** A failing conversion raises the error of the first entry that fails. */
  lemma {:induction false} ConvertRaisesFirstError<R>(
    entries: seq<(string, Value)>, convert: Value -> Completion<R>, i: nat, acc: map<string, R>, j: nat)
    requires i <= j < |entries|
    requires forall k :: i <= k < j ==> convert(entries[k].1).Normal?
    requires convert(entries[j].1).Raised?
    ensures ConvertFrom(entries, convert, i, acc) == Raised(convert(entries[j].1).exn)
    decreases j - i
  {
    if i < j {
      ConvertRaisesFirstError(entries, convert, i + 1, acc[entries[i].0 := convert(entries[i].1).value], j);
    }
  }

  /** A successful conversion holds one record per entry, under the entry's
      key, besides what was built before. */
  lemma {:induction false} ConvertContents<R>(
    entries: seq<(string, Value)>, convert: Value -> Completion<R>, i: nat, acc: map<string, R>)
    requires i <= |entries| && DistinctKeys(entries)
    requires ConvertFrom(entries, convert, i, acc).Normal?
    ensures var m := ConvertFrom(entries, convert, i, acc).value;
      && m.Keys == acc.Keys + (set j | i <= j < |entries| :: entries[j].0)
      && (forall j :: i <= j < |entries| ==> convert(entries[j].1).Normal? && m[entries[j].0] == convert(entries[j].1).value)
      && (forall name :: name in acc && (forall j :: i <= j < |entries| ==> entries[j].0 != name) ==>
            m[name] == acc[name])
    decreases |entries| - i
  {
    if i < |entries| {
      var acc' := acc[entries[i].0 := convert(entries[i].1).value];
      ConvertContents(entries, convert, i + 1, acc');
      var m := ConvertFrom(entries, convert, i, acc).value;
      assert m == ConvertFrom(entries, convert, i + 1, acc').value;
      assert (set j | i <= j < |entries| :: entries[j].0) ==
             {entries[i].0} + (set j | i + 1 <= j < |entries| :: entries[j].0);
    }
  }

  // ---------------------------------------------------------------------------
  // load_config after the document is read
  // ---------------------------------------------------------------------------

  /** Building the `Config` from the (overridden) document; the result is a
      `Config` or the exception the construction raises. */
  function Build(document: seq<(string, Value)>): (r: Completion<Config>)
    // construction raises only AttributeError (a section without items),
    // TypeError (an entry that is not a dict) or KeyError (a missing key)
    ensures r.Raised? ==> r.exn.kind in {AttributeError, TypeError, KeyError}
  {
    var profileData :- Section(document, "profiles");
    var profiles :- ConvertFrom(profileData, ProfileFrom, 0, map[]);
    var agentData :- Section(document, "agents");
    var agents :- ConvertFrom(agentData, AgentFrom, 0, map[]);
    Normal(Config(profiles, agents,
      GetOr(document, MaxHistoryKey, Int(DefaultMaxHistory)),
      GetOr(document, TimeoutKey, Int(DefaultTimeout))))
  }

  /** What `load_config` returns (a `Config`, or `None`) or raises, with the
      warnings it logs. */
  datatype LoadResult = LoadResult(outcome: Completion<Option<Config>>, log: seq<LogRecord>)

  predicate Caught(e: Exn)
  {
    IsInstance(e.kind, TypeError) || IsInstance(e.kind, ValueError)
  }

  /** `except (TypeError, ValueError)`: log and return `None`; anything else
      propagates. */
  function Handle(e: Exn, log: seq<LogRecord>): (r: LoadResult)
    // what is not caught propagates unchanged, with nothing more logged
    ensures !Caught(e) ==> r.outcome == Raised(e) && r.log == log
    // what is caught gives None and one more warning, carrying the message
    ensures Caught(e) ==>
      && r.outcome == Normal(None) && |r.log| == |log| + 1 && r.log[..|log|] == log
      && r.log[|log|] == LogRecord(Warning, "Failed to load config: " + e.message)
  {
    if Caught(e) then LoadResult(Normal(None), log + [LogRecord(Warning, "Failed to load config: " + e.message)])
    else LoadResult(Raised(e), log)
  }

  /** `load_config` from line 67 on, for the document already read. */
  function Load(document: seq<(string, Value)>, envMaxHistory: Option<string>, envTimeout: Option<string>)
    : LoadResult
  {
    var h := EnvOverride(document, MaxHistoryKey, MaxHistoryVariable, envMaxHistory);
    var t := EnvOverride(h.document, TimeoutKey, TimeoutVariable, envTimeout);
    match Build(t.document)
    case Normal(c) => LoadResult(Normal(Some(c)), h.log + t.log)
    case Raised(e) => Handle(e, h.log + t.log)
  }

  /** `load_config` as the source writes it: two overrides of the document,
      then two loops that fill the `profiles` and `agents` dicts. */
  method LoadConfig(document: seq<(string, Value)>, envMaxHistory: Option<string>, envTimeout: Option<string>)
    returns (outcome: Completion<Option<Config>>, log: seq<LogRecord>)
    ensures LoadResult(outcome, log) == Load(document, envMaxHistory, envTimeout)
  {
    var h := EnvOverride(document, MaxHistoryKey, MaxHistoryVariable, envMaxHistory);
    var t := EnvOverride(h.document, TimeoutKey, TimeoutVariable, envTimeout);
    var configData := t.document;
    log := h.log + t.log;
    assert Load(document, envMaxHistory, envTimeout) ==
      if Build(configData).Normal? then LoadResult(Normal(Some(Build(configData).value)), log)
      else Handle(Build(configData).exn, log);

    var profileData := Section(configData, "profiles");
    if profileData.Raised? {
      assert Build(configData) == Raised(profileData.exn);
      return Raised(profileData.exn), log;
    }
    var profiles := Convert(profileData.value, ProfileFrom);
    if profiles.Raised? {
      assert Build(configData) == Raised(profiles.exn);
      var r := Handle(profiles.exn, log);
      return r.outcome, r.log;
    }

    var agentData := Section(configData, "agents");
    if agentData.Raised? {
      assert Build(configData) == Raised(agentData.exn);
      return Raised(agentData.exn), log;
    }
    var agents := Convert(agentData.value, AgentFrom);
    if agents.Raised? {
      assert Build(configData) == Raised(agents.exn);
      var r := Handle(agents.exn, log);
      return r.outcome, r.log;
    }

    var config := Config(profiles.value, agents.value,
      GetOr(configData, MaxHistoryKey, Int(DefaultMaxHistory)),
      GetOr(configData, TimeoutKey, Int(DefaultTimeout)));
    assert Build(configData) == Normal(config);
    outcome := Normal(Some(config));
  }

  /** One of the two loops of `load_config`: `result[name] = convert(info)`
      for each entry in order, stopping at the first entry that raises. */
  method Convert<R>(entries: seq<(string, Value)>, convert: Value -> Completion<R>)
    returns (result: Completion<map<string, R>>)
    ensures result == ConvertFrom(entries, convert, 0, map[])
  {
    var built: map<string, R> := map[];
    var i := 0;
    while i < |entries|
      invariant i <= |entries|
      invariant ConvertFrom(entries, convert, i, built) == ConvertFrom(entries, convert, 0, map[])
    {
      var c := convert(entries[i].1);
      if c.Raised? {
        return Raised(c.exn);
      }
      built := built[entries[i].0 := c.value];
      i := i + 1;
    }
    result := Normal(built);
  }

  // ---------------------------------------------------------------------------
  // Properties of load_config
  // ---------------------------------------------------------------------------

  /** The value a scalar setting ends up with: a valid override, else the
      document's own value verbatim, else the default. */
  function Effective(document: seq<(string, Value)>, key: string, env: Option<string>, default: int): Value
  {
    if Overrides(env) then Int(ParseInt(env.value).value) else GetOr(document, key, Int(default))
  }

  /** A loaded configuration's two scalars are the valid override if there is
      one, else the document's value as it is (non-positive values included),
      else 100 and 300. */
  lemma LoadedScalars(document: seq<(string, Value)>, envMaxHistory: Option<string>, envTimeout: Option<string>)
    requires Load(document, envMaxHistory, envTimeout).outcome.Normal?
    requires Load(document, envMaxHistory, envTimeout).outcome.value.Some?
    ensures var c := Load(document, envMaxHistory, envTimeout).outcome.value.value;
      && c.maxHistory == Effective(document, MaxHistoryKey, envMaxHistory, DefaultMaxHistory)
      && c.conversationTimeout == Effective(document, TimeoutKey, envTimeout, DefaultTimeout)
  {
    var h := EnvOverride(document, MaxHistoryKey, MaxHistoryVariable, envMaxHistory);
    var t := EnvOverride(h.document, TimeoutKey, TimeoutVariable, envTimeout);
    var b := Build(t.document);
    assert b.Normal?;
    assert Load(document, envMaxHistory, envTimeout).outcome.value.value == b.value;
    assert MaxHistoryKey != TimeoutKey;
    assert Get(t.document, MaxHistoryKey) == Get(h.document, MaxHistoryKey);
  }

  /** The warning (if any) of an override, as `load_config` logs it. */
  function OverrideWarning(variable: string, env: Option<string>): seq<LogRecord>
  {
    if env.Some? && env.value != "" && ParseInt(env.value).None?
    then [LogRecord(Warning, "Invalid " + variable + " value: " + env.value)] else []
  }

  /** `load_config` first logs one warning per set, non-empty and unparsable
      override variable, in the order the variables are read; the only further
      record is the warning of a caught construction error. */
  lemma LoadLog(document: seq<(string, Value)>, envMaxHistory: Option<string>, envTimeout: Option<string>)
    ensures var r := Load(document, envMaxHistory, envTimeout);
      var warned := OverrideWarning(MaxHistoryVariable, envMaxHistory) + OverrideWarning(TimeoutVariable, envTimeout);
      && |r.log| >= |warned| && r.log[..|warned|] == warned
      && (|r.log| > |warned| <==> r.outcome == Normal(None))
  {
    var h := EnvOverride(document, MaxHistoryKey, MaxHistoryVariable, envMaxHistory);
    var t := EnvOverride(h.document, TimeoutKey, TimeoutVariable, envTimeout);
    assert h.log == OverrideWarning(MaxHistoryVariable, envMaxHistory);
    assert t.log == OverrideWarning(TimeoutVariable, envTimeout);
    var log := h.log + t.log;
    var b := Build(t.document);
    assert Load(document, envMaxHistory, envTimeout) ==
      if b.Normal? then LoadResult(Normal(Some(b.value)), log) else Handle(b.exn, log);
    OutcomeLog(b, log);
  }

  /** Whatever construction gives, the log so far is kept as a prefix, and it
      grows exactly when `None` is returned. */
  lemma OutcomeLog(b: Completion<Config>, log: seq<LogRecord>)
    ensures var r := if b.Normal? then LoadResult(Normal(Some(b.value)), log) else Handle(b.exn, log);
      && |r.log| >= |log| && r.log[..|log|] == log
      && (|r.log| > |log| <==> r.outcome == Normal(None))
  {
    if b.Normal? || !Caught(b.exn) {
      assert log[..|log|] == log;
    }
  }

  /** What the document must look like for `load_config` to return a
      `Config`: both sections absent or dicts, every profile a dict with
      `provider`, `api_key` and `model`, every agent a dict with `profile`. */
  predicate WellFormed(document: seq<(string, Value)>)
  {
    && Section(document, "profiles").Normal?
    && Section(document, "agents").Normal?
    && (forall j :: 0 <= j < |Section(document, "profiles").value| ==>
          ProfileFrom(Section(document, "profiles").value[j].1).Normal?)
    && (forall j :: 0 <= j < |Section(document, "agents").value| ==>
          AgentFrom(Section(document, "agents").value[j].1).Normal?)
  }

  /** Building succeeds exactly for well-formed documents. */
  lemma BuildSucceedsIff(document: seq<(string, Value)>)
    ensures Build(document).Normal? <==> WellFormed(document)
  {
    var ps := Section(document, "profiles");
    var as_ := Section(document, "agents");
    if ps.Normal? {
      ConvertSucceedsIff(ps.value, ProfileFrom, 0, map[]);
      if as_.Normal? {
        ConvertSucceedsIff(as_.value, AgentFrom, 0, map[]);
      }
    }
  }

  /** In a built configuration every profile and every agent entry of the
      document is a record under its own key, and there are no others. */
  lemma BuildContents(document: seq<(string, Value)>)
    requires Build(document).Normal?
    requires Section(document, "profiles").Normal? && DistinctKeys(Section(document, "profiles").value)
    requires Section(document, "agents").Normal? && DistinctKeys(Section(document, "agents").value)
    ensures var c := Build(document).value;
      var pe := Section(document, "profiles").value;
      var ae := Section(document, "agents").value;
      && c.profiles.Keys == (set j | 0 <= j < |pe| :: pe[j].0)
      && (forall j :: 0 <= j < |pe| ==> ProfileFrom(pe[j].1).Normal? && c.profiles[pe[j].0] == ProfileFrom(pe[j].1).value)
      && c.agents.Keys == (set j | 0 <= j < |ae| :: ae[j].0)
      && (forall j :: 0 <= j < |ae| ==> AgentFrom(ae[j].1).Normal? && c.agents[ae[j].0] == AgentFrom(ae[j].1).value)
  {
    var pe := Section(document, "profiles").value;
    var ae := Section(document, "agents").value;
    var pc := ConvertFrom(pe, ProfileFrom, 0, map[]);
    assert pc.Normal?;
    var ac := ConvertFrom(ae, AgentFrom, 0, map[]);
    assert ac.Normal?;
    assert Build(document).value.profiles == pc.value;
    assert Build(document).value.agents == ac.value;
    ConvertContents(pe, ProfileFrom, 0, map[]);
    ConvertContents(ae, AgentFrom, 0, map[]);
  }

  /** The document as the construction sees it, after both overrides. */
  function Prepared(document: seq<(string, Value)>, envMaxHistory: Option<string>, envTimeout: Option<string>)
    : seq<(string, Value)>
  {
    EnvOverride(EnvOverride(document, MaxHistoryKey, MaxHistoryVariable, envMaxHistory).document,
                TimeoutKey, TimeoutVariable, envTimeout).document
  }

  /** On the prepared document: the first profile entry that fails to convert
      decides what `Build` raises, a `TypeError` (caught) for a non-dict and a
      `KeyError` (not caught) for a dict missing a required key. */
  lemma BuildStopsAtProfile(d: seq<(string, Value)>, j: nat)
    requires Section(d, "profiles").Normal?
    requires j < |Section(d, "profiles").value|
    requires forall k :: 0 <= k < j ==> ProfileFrom(Section(d, "profiles").value[k].1).Normal?
    requires ProfileFrom(Section(d, "profiles").value[j].1).Raised?
    ensures var info := Section(d, "profiles").value[j].1;
      && Build(d) == Raised(ProfileFrom(info).exn)
      && (Caught(ProfileFrom(info).exn) <==> !info.Dict?)
      && (info.Dict? ==> ProfileFrom(info).exn.kind == KeyError)
  {
    var pe := Section(d, "profiles").value;
    ConvertRaisesFirstError(pe, ProfileFrom, 0, map[], j);
  }

  /** The first profile entry that is not a dict makes `load_config` log a
      warning and return `None`; the first one that is a dict but lacks a
      required key raises `KeyError`, which is not caught. */
  lemma BadProfileEntry(document: seq<(string, Value)>, envMaxHistory: Option<string>, envTimeout: Option<string>, j: nat)
    requires var d := Prepared(document, envMaxHistory, envTimeout);
      && Section(d, "profiles").Normal?
      && j < |Section(d, "profiles").value|
      && (forall k :: 0 <= k < j ==> ProfileFrom(Section(d, "profiles").value[k].1).Normal?)
      && ProfileFrom(Section(d, "profiles").value[j].1).Raised?
    ensures var d := Prepared(document, envMaxHistory, envTimeout);
      var info := Section(d, "profiles").value[j].1;
      var r := Load(document, envMaxHistory, envTimeout);
      && (!info.Dict? ==> r.outcome == Normal(None) && |r.log| > 0 && r.log[|r.log| - 1].level == Warning)
      && (info.Dict? ==> r.outcome.Raised? && r.outcome.exn.kind == KeyError)
  {
    var h := EnvOverride(document, MaxHistoryKey, MaxHistoryVariable, envMaxHistory);
    var t := EnvOverride(h.document, TimeoutKey, TimeoutVariable, envTimeout);
    BuildStopsAtProfile(t.document, j);
    var e := ProfileFrom(Section(t.document, "profiles").value[j].1).exn;
    assert Load(document, envMaxHistory, envTimeout) == Handle(e, h.log + t.log);
  }

  /** On the prepared document with every profile well formed: the first agent
      entry that fails to convert decides what `Build` raises, a caught
      `TypeError` for a non-dict and the uncaught `KeyError('profile')` for a
      dict without `profile`. */
  lemma BuildStopsAtAgent(d: seq<(string, Value)>, j: nat)
    requires Section(d, "profiles").Normal?
    requires forall k :: 0 <= k < |Section(d, "profiles").value| ==> ProfileFrom(Section(d, "profiles").value[k].1).Normal?
    requires Section(d, "agents").Normal?
    requires j < |Section(d, "agents").value|
    requires forall k :: 0 <= k < j ==> AgentFrom(Section(d, "agents").value[k].1).Normal?
    requires AgentFrom(Section(d, "agents").value[j].1).Raised?
    ensures var info := Section(d, "agents").value[j].1;
      && Build(d) == Raised(AgentFrom(info).exn)
      && (Caught(AgentFrom(info).exn) <==> !info.Dict?)
      && (info.Dict? ==> AgentFrom(info).exn == Exn(KeyError, "'profile'", None))
  {
    var pe := Section(d, "profiles").value;
    ConvertSucceedsIff(pe, ProfileFrom, 0, map[]);
    ConvertRaisesFirstError(Section(d, "agents").value, AgentFrom, 0, map[], j);
  }

  /** The first agent entry that is not a dict makes `load_config` log a
      warning and return `None`; the first one that is a dict without
      `profile` raises `KeyError('profile')`, which is not caught. */
  lemma BadAgentEntry(document: seq<(string, Value)>, envMaxHistory: Option<string>, envTimeout: Option<string>, j: nat)
    requires var d := Prepared(document, envMaxHistory, envTimeout);
      && Section(d, "profiles").Normal?
      && (forall k :: 0 <= k < |Section(d, "profiles").value| ==> ProfileFrom(Section(d, "profiles").value[k].1).Normal?)
      && Section(d, "agents").Normal?
      && j < |Section(d, "agents").value|
      && (forall k :: 0 <= k < j ==> AgentFrom(Section(d, "agents").value[k].1).Normal?)
      && AgentFrom(Section(d, "agents").value[j].1).Raised?
    ensures var d := Prepared(document, envMaxHistory, envTimeout);
      var info := Section(d, "agents").value[j].1;
      var r := Load(document, envMaxHistory, envTimeout);
      && (!info.Dict? ==> r.outcome == Normal(None) && |r.log| > 0 && r.log[|r.log| - 1].level == Warning)
      && (info.Dict? ==> r.outcome == Raised(Exn(KeyError, "'profile'", None)))
  {
    var h := EnvOverride(document, MaxHistoryKey, MaxHistoryVariable, envMaxHistory);
    var t := EnvOverride(h.document, TimeoutKey, TimeoutVariable, envTimeout);
    BuildStopsAtAgent(t.document, j);
    var e := AgentFrom(Section(t.document, "agents").value[j].1).exn;
    assert Load(document, envMaxHistory, envTimeout) == Handle(e, h.log + t.log);
  }

  /** A `profiles` section that is present but not a dict raises
      `AttributeError`, which is not caught. */
  lemma SectionNotDict(document: seq<(string, Value)>, envMaxHistory: Option<string>, envTimeout: Option<string>)
    requires var d := Prepared(document, envMaxHistory, envTimeout);
      Section(d, "profiles").Raised?
    ensures Load(document, envMaxHistory, envTimeout).outcome.Raised?
    ensures Load(document, envMaxHistory, envTimeout).outcome.exn.kind == AttributeError
  {
  }

  /** Once the profiles convert, an `agents` section that is present but not
      a dict raises `AttributeError`, which is not caught. */
  lemma AgentsSectionNotDict(document: seq<(string, Value)>, envMaxHistory: Option<string>, envTimeout: Option<string>)
    requires var d := Prepared(document, envMaxHistory, envTimeout);
      && Section(d, "profiles").Normal?
      && (forall k :: 0 <= k < |Section(d, "profiles").value| ==> ProfileFrom(Section(d, "profiles").value[k].1).Normal?)
      && Section(d, "agents").Raised?
    ensures Load(document, envMaxHistory, envTimeout).outcome.Raised?
    ensures Load(document, envMaxHistory, envTimeout).outcome.exn.kind == AttributeError
  {
    var d := Prepared(document, envMaxHistory, envTimeout);
    ConvertSucceedsIff(Section(d, "profiles").value, ProfileFrom, 0, map[]);
  }
}
