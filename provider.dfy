/** The provider check at the start of `Agent.__init__`. */
module Provider {
  import opened Wrappers

  datatype Provider = Google | Groq | HuggingFace

  /** The message of the `ValueError` raised for any other model type. */
  const InvalidProvider: string := " Invalid provider. Choose 'google', ' groq' or 'huggingface'"

  /** The `model_type` string that selects each provider. */
  function ModelTypeName(p: Provider): string {
    match p
    case Google => "google"
    case Groq => "groq"
    case HuggingFace => "HfApiModel"
  }

  /** Which chat model class `Agent.__init__` builds for `modelType`, or the error it raises. */
  function SelectProvider(modelType: string): (r: Result<Provider, string>)
    ensures r.Ok? ==> ModelTypeName(r.value) == modelType
    ensures r.Err? <==> modelType !in {"google", "groq", "HfApiModel"}
    ensures r.Err? ==> r.error == InvalidProvider
  {
    if modelType == "google" then Ok(Google)
    else if modelType == "groq" then Ok(Groq)
    else if modelType == "HfApiModel" then Ok(HuggingFace)
    else Err(InvalidProvider)
  }

  /** Each provider is selected by its own name. */
  lemma SelectProviderRoundTrip(p: Provider)
    ensures SelectProvider(ModelTypeName(p)) == Ok(p)
  {
  }
}
