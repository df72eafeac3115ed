/**
 * Provider selection by name (ezagent/llm/__init__.py) together with the
 * adapters' constructors, which read their API key from the environment.
 */
module Providers {
  import opened Wrappers
  import AnthropicProvider
  import GoogleProvider

  /** A constructed provider: which backend, and the model it talks to. */
  datatype Provider = Anthropic(model: string) | Google(model: string)

  const AnthropicKeyVar := "ANTHROPIC_API_KEY"
  const GoogleKeyVar := "GOOGLE_API_KEY"

  /** `os.environ.get(var)` is set to a non-empty value. */
  predicate HasKey(env: map<string, string>, keyVar: string) {
    keyVar in env && env[keyVar] != ""
  }

  function MissingKeyError(keyVar: string): string {
    keyVar + " environment variable is not set. Set it before starting the daemon."
  }

  function UnknownProviderError(name: string): string {
    "Unknown LLM provider '" + name + "'. Supported: anthropic, google"
  }

  /** `create_provider(name, model)`; an empty model selects the backend's default. */
  function CreateProvider(name: string, model: string, env: map<string, string>): (r: Result<Provider, string>)
    ensures r.Success? ==> r.value.model != ""
    ensures r.Success? ==> (r.value.Anthropic? <==> name == "anthropic") && (r.value.Google? <==> name == "google")
    ensures r.Success? && model != "" ==> r.value.model == model
    ensures r.Success? && model == "" ==> r.value.model == (if name == "anthropic" then AnthropicProvider.DefaultModel else GoogleProvider.DefaultModel)
    ensures name != "anthropic" && name != "google" ==> r == Failure(UnknownProviderError(name))
    ensures name == "anthropic" ==> (r.Success? <==> HasKey(env, AnthropicKeyVar))
    ensures name == "google" ==> (r.Success? <==> HasKey(env, GoogleKeyVar))
    ensures r.Failure? && name == "anthropic" ==> r.error == MissingKeyError(AnthropicKeyVar)
  {
    if name == "anthropic" then
      if !HasKey(env, AnthropicKeyVar) then Failure(MissingKeyError(AnthropicKeyVar))
      else Success(Anthropic(if model != "" then model else AnthropicProvider.DefaultModel))
    else if name == "google" then
      if !HasKey(env, GoogleKeyVar) then Failure(MissingKeyError(GoogleKeyVar))
      else Success(Google(if model != "" then model else GoogleProvider.DefaultModel))
    else Failure(UnknownProviderError(name))
  }
}
