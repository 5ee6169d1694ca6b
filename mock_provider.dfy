/** The test double provider: the same two required-field checks as the
    OpenAI provider, then a mock model holding copies of the profile's
    fields; and a `create_model` variant that always raises. */
module MockProvider {
  import opened Runtime
  import opened Settings
  import opened Providers

  const ApiKeyRequired := "API key is required"
  const ModelRequired := "Model name is required"
  const MockError := "Mock provider error for testing"

  function CreateModel(profile: ProfileConfig): (r: Completion<Model>)
    ensures !Truthy(profile.apiKey) ==> r == Raised(Exn(ValueError, ApiKeyRequired, None))
    ensures Truthy(profile.apiKey) && !Truthy(profile.model) ==> r == Raised(Exn(ValueError, ModelRequired, None))
    ensures r.Normal? <==> Truthy(profile.apiKey) && Truthy(profile.model)
    ensures r.Normal? ==> r.value.MockModel?
  {
    if !Truthy(profile.apiKey) then Raised(Exn(ValueError, ApiKeyRequired, None))
    else if !Truthy(profile.model) then Raised(Exn(ValueError, ModelRequired, None))
    else Normal(MockModel(profile.provider, profile.model, profile.apiKey, profile.baseUrl, profile.settings))
  }

  /** The profile a mock model was made from, read back from its fields. */
  function ProfileOf(m: Model): ProfileConfig
    requires m.MockModel?
  {
    ProfileConfig(m.providerName, m.apiKey, m.modelName, m.baseUrl, m.settings)
  }

  /** The mock's fields are the profile's, `settings = None` included, and no
      check is made on the shape of the settings. */
  lemma MockRoundTrip(profile: ProfileConfig)
    requires Truthy(profile.apiKey) && Truthy(profile.model)
    ensures CreateModel(profile).Normal?
    ensures ProfileOf(CreateModel(profile).value) == profile
  {
  }

  function CreateModelWithError(profile: ProfileConfig): (r: Completion<Model>)
    ensures r == Raised(Exn(Exception, MockError, None))
  {
    Raised(Exn(Exception, MockError, None))
  }
}
