/** The OpenAI provider's `create_model`: validation of the profile's fields in
    a fixed order, then construction of the SDK's provider and chat model,
    whose failures are wrapped as `ConnectionError`. */
module OpenAI {
  import opened Runtime
  import opened Settings
  import opened Providers

  /** The SDK constructors, which may raise: `providerFailure(base_url, api_key)`
      is the exception `OpenAIProvider(...)` raises, if any, and
      `modelFailure(model, provider, settings)` that of `OpenAIChatModel(...)`. */
  datatype Sdk = Sdk(
    providerFailure: (Value, Value) -> Option<Exn>,
    modelFailure: (Value, OpenAIProvider, Value) -> Option<Exn>)

  const ApiKeyRequired := "API key is required"
  const ModelRequired := "Model name is required"
  const SettingsShape := "Settings must be a dictionary or None"
  const ConnectionPrefix := "Failed to create OpenAI model: "

  /** The settings check: `None` or a dict. */
  predicate SettingsAccepted(settings: Value)
  {
    settings.Null? || settings.Dict?
  }

  /** The first validation the profile fails, in the order the checks run. */
  function FirstDefect(profile: ProfileConfig): Option<string>
  {
    if !Truthy(profile.apiKey) then Some(ApiKeyRequired)
    else if !Truthy(profile.model) then Some(ModelRequired)
    else if !SettingsAccepted(profile.settings) then Some(SettingsShape)
    else None
  }

  function CreateModel(sdk: Sdk, profile: ProfileConfig): (r: Completion<Model>)
    // a validation failure is a ValueError with the first failing check's message, never wrapped
    ensures FirstDefect(profile).Some? ==> r == Raised(Exn(ValueError, FirstDefect(profile).value, None))
    // past validation every raise is a ConnectionError wrapping the SDK's failure
    ensures r.Raised? && FirstDefect(profile).None? ==>
      && r.exn.kind == ConnectionError
      && r.exn.cause.Some?
      && r.exn.message == ConnectionPrefix + r.exn.cause.value.message
      && r.exn.cause == (var p := sdk.providerFailure(profile.baseUrl, profile.apiKey);
                         if p.Some? then p
                         else sdk.modelFailure(profile.model, OpenAIProvider(profile.baseUrl, profile.apiKey), profile.settings))
    // on success the SDK received the profile's fields unchanged
    ensures r.Normal? ==>
      && FirstDefect(profile).None?
      && r.value == OpenAIChatModel(profile.model, OpenAIProvider(profile.baseUrl, profile.apiKey), profile.settings)
  {
    if !Truthy(profile.apiKey) then Raised(Exn(ValueError, ApiKeyRequired, None))
    else if !Truthy(profile.model) then Raised(Exn(ValueError, ModelRequired, None))
    else
      var baseUrl, apiKey, modelName, settings := profile.baseUrl, profile.apiKey, profile.model, profile.settings;
      if !settings.Null? && !settings.Dict? then Raised(Exn(ValueError, SettingsShape, None))
      else
        match sdk.providerFailure(baseUrl, apiKey)
        case Some(e) => Raised(Exn(ConnectionError, ConnectionPrefix + e.message, Some(e)))
        case None =>
          var provider := OpenAIProvider(baseUrl, apiKey);
          match sdk.modelFailure(modelName, provider, settings)
          case Some(e) => Raised(Exn(ConnectionError, ConnectionPrefix + e.message, Some(e)))
          case None => Normal(OpenAIChatModel(modelName, provider, settings))
  }

  /** `create_model` succeeds exactly when the profile passes validation and
      neither SDK constructor raises. */
  lemma CreateModelSucceedsIff(sdk: Sdk, profile: ProfileConfig)
    ensures CreateModel(sdk, profile).Normal? <==>
      && FirstDefect(profile).None?
      && sdk.providerFailure(profile.baseUrl, profile.apiKey).None?
      && sdk.modelFailure(profile.model, OpenAIProvider(profile.baseUrl, profile.apiKey), profile.settings).None?
  {
  }

  /** The handle gives back the profile's endpoint fields: rebuilding a profile
      from the handle (and the profile's provider name, which the handle does
      not record) yields the profile. */
  function ProfileOf(provider: Value, m: Model): ProfileConfig
    requires m.OpenAIChatModel?
  {
    ProfileConfig(provider, m.provider.apiKey, m.modelName, m.provider.baseUrl, m.settings)
  }

  lemma HandleRoundTrip(sdk: Sdk, profile: ProfileConfig)
    requires CreateModel(sdk, profile).Normal?
    ensures CreateModel(sdk, profile).value.OpenAIChatModel?
    ensures ProfileOf(profile.provider, CreateModel(sdk, profile).value) == profile
  {
  }
}
