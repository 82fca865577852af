/** The credential guard both adapters run before touching the network. */
module Credentials {
  import opened Python

  /** The process environment: variable name to value. */
  type Env = map<string, string>

  const OpenAiKey := "OPENAI_API_KEY"
  const AnthropicKey := "ANTHROPIC_API_KEY"

  /** `not os.getenv(name)`: an unset variable and an empty one are both missing. */
  predicate Missing(env: Env, name: string) {
    name !in env || env[name] == ""
  }

  /** Raises for the first missing key, checking the OpenAI key before the
      Anthropic key; passes only when both are present and non-empty. */
  function VerifyApiKeys(env: Env): (r: Py<()>)
    ensures r.Ok? <==> !Missing(env, "OPENAI_API_KEY") && !Missing(env, "ANTHROPIC_API_KEY")
    ensures Missing(env, "OPENAI_API_KEY") ==>
              r == Raise(Exc(EnvironmentError, "OPENAI_API_KEY is not set"))
    ensures !Missing(env, "OPENAI_API_KEY") && Missing(env, "ANTHROPIC_API_KEY") ==>
              r == Raise(Exc(EnvironmentError, "ANTHROPIC_API_KEY is not set"))
  {
    if Missing(env, OpenAiKey) then Raise(Exc(EnvironmentError, OpenAiKey + " is not set"))
    else if Missing(env, AnthropicKey) then Raise(Exc(EnvironmentError, AnthropicKey + " is not set"))
    else Ok(())
  }
}
