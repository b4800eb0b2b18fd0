/**
 * The OpenAI service object as the registry sees it: the key read at
 * construction and a client created by the first `authenticate`.
 */
module OpenAiService {
  import opened Wrappers
  import EnvLoader

  /** An `OpenAI(api_key=...)` client, known by the key it was made with. */
  datatype OpenAIClient = OpenAIClient(apiKey: string)

  /** Why `authenticate` raised. */
  datatype ClientError =
    | OpenAIError  // `OpenAI(api_key=None)`: no key was set

  class OpenAIService {
    const apiKey: Option<string>
    var client: Option<OpenAIClient>

    /** `OpenAIService()`: reads OPENAI_API_KEY from the store; no client yet. */
    constructor (env: EnvLoader.EnvStore)
      ensures apiKey == env.FetchEnvVariable(EnvLoader.OpenaiApiKey)
      ensures client == None
    {
      apiKey := env.FetchEnvVariable(EnvLoader.OpenaiApiKey);
      client := None;
    }

    /**
     * `authenticate()`: creates the client from the key unless one exists;
     * creating it without a key raises and leaves no client.
     */
    method Authenticate() returns (r: Outcome<ClientError>)
      modifies this
      ensures old(client).Some? ==> r.Pass? && client == old(client)
      ensures old(client).None? && apiKey.Some? ==> r.Pass? && client == Some(OpenAIClient(apiKey.value))
      ensures old(client).None? && apiKey.None? ==> r == Fail(OpenAIError) && client == None
    {
      if client.Some? {
        return Pass;
      }
      if apiKey.None? {
        return Fail(OpenAIError);
      }
      client := Some(OpenAIClient(apiKey.value));
      return Pass;
    }
  }
}
