/** The two model backends, the registry that selects one by name, and the
    image size each declares. What a backend does with an image (encoding it,
    prompting a remote model, returning its text) is a collaborator outside
    this model: the orchestrator receives it as a function. */
module Providers {
  import opened Wrappers
  import opened Errors

  datatype ProviderKind = Claude | Gpt4

  /** A constructed backend: which one, and the credential it was given. */
  datatype Provider = Provider(kind: ProviderKind, apiKey: string)

  /** The provider registry, keyed by the names callers use. */
  const Registry: map<string, ProviderKind> := map["claude" := Claude, "gpt4" := Gpt4]

  /** The largest processed image, in bytes, that the backend accepts. */
  function MaxImageSize(kind: ProviderKind): (r: int)
    ensures r > 0
    ensures kind == Claude ==> r == 5_242_880
    ensures kind == Gpt4 ==> r == 20_971_520
  {
    match kind
    case Claude => 5 * 1024 * 1024
    case Gpt4 => 20 * 1024 * 1024
  }

  /** Looking a name up in the registry: a name outside it is a ValueError. */
  function Lookup(name: string): (r: Result<ProviderKind, Error>)
    ensures r.Ok? <==> name == "claude" || name == "gpt4"
    ensures r.Err? ==> r.error == ValueError
    ensures name == "claude" ==> r == Ok(Claude)
    ensures name == "gpt4" ==> r == Ok(Gpt4)
  {
    if name in Registry then Ok(Registry[name]) else Err(ValueError)
  }

  /** Every registered backend is found under its name, and the two size
      limits are 5 MiB and 20 MiB. */
  lemma RegistryLimits()
    ensures Lookup("claude").Ok? && MaxImageSize(Lookup("claude").value) == 5_242_880
    ensures Lookup("gpt4").Ok? && MaxImageSize(Lookup("gpt4").value) == 20_971_520
    ensures Lookup("invalid") == Err(ValueError)
  {
  }
}
