/** The provider contract: a provider unit `tmuxbot.providers.<name>` exposes
    `create_model(profile) -> Model`. The dynamic import is modelled as an
    explicit registry from unit names to units. */
module Providers {
  import opened Runtime
  import opened Settings

  /** The SDK's provider object, recorded with the arguments it was built from. */
  datatype OpenAIProvider = OpenAIProvider(baseUrl: Value, apiKey: Value)

  /** A model handle, recorded with what it was built from: the SDK's chat
      model, or the test double's mock with the profile's fields copied in. */
  datatype Model =
    | OpenAIChatModel(modelName: Value, provider: OpenAIProvider, settings: Value)
    | MockModel(providerName: Value, modelName: Value, apiKey: Value, baseUrl: Value, settings: Value)

  /** A provider's `create_model`: it returns a model or raises. */
  type CreateModelFn = ProfileConfig -> Completion<Model>

  /** What `importlib.import_module` finds under a name: a unit whose import
      succeeds, with its `create_model` attribute (`None` when the unit has no
      such attribute or sets it to `None`), or a unit whose own import raises. */
  datatype ProviderUnit =
    | Loaded(createModel: Option<CreateModelFn>)
    | ImportFails(error: Exn)

  /** The importable provider units, by the name after `tmuxbot.providers.`. */
  type Registry = map<string, ProviderUnit>

  const ProviderPackage := "tmuxbot.providers."
}
