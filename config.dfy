/**
 * Provider and credential validation: the constructor of
 * `ProposalProcessor` (chat model and embeddings) and the head of
 * `upload_documents` (embeddings). Each either accepts a configuration or
 * raises `ValueError` with a fixed message.
 */
module Config {
  import opened Wrappers

  /** Python truthiness of an optional string: neither `None` nor "". */
  predicate Truthy(s: Option<string>) {
    s.Some? && s.value != ""
  }

  /** The chat model a processor completes prompts with. */
  datatype ChatModel =
    | OpenAiChat(modelName: string, apiKey: string)
    | VertexChat(modelName: string, maxOutputTokens: nat, project: string, location: string, credentialsPath: string)

  /** The embedding function a vector store embeds texts with. */
  datatype Embedder =
    | OpenAiEmbedder(apiKey: string)
    | VertexEmbedder(modelName: string, project: string, location: string)

  /** The clients a processor is built from. */
  datatype Setup = Setup(chat: ChatModel, embedder: Embedder)

  /**
   * What construction raises: a validation `ValueError`, an exception the
   * library raises inside the named call (its kind is decided by library
   * code that is not part of this model), or `UnboundLocalError` for a
   * local read before any assignment.
   */
  datatype InitError = ValueError(message: string) | RaisedIn(callee: string) | UnboundLocalError(name: string)

  /**
   * The chat-model branch of the constructor: "openai" needs an API key,
   * "vertex" needs project id, location and credentials path, any other
   * provider is unsupported.
   */
  function ValidateChat(provider: string, openAiKey: Option<string>, projectId: Option<string>,
                        location: Option<string>, credentialsPath: Option<string>): (r: Result<ChatModel, string>)
    ensures r.Success? <==>
            (provider == "openai" && Truthy(openAiKey)) ||
            (provider == "vertex" && Truthy(projectId) && Truthy(location) && Truthy(credentialsPath))
    ensures r.Success? ==> (r.value.OpenAiChat? <==> provider == "openai")
    ensures r.Success? && r.value.OpenAiChat? ==> r.value == OpenAiChat("gpt-4-turbo-preview", openAiKey.value)
    ensures r.Success? && r.value.VertexChat? ==>
            r.value == VertexChat("gemini-1.5-flash", 2048, projectId.value, location.value, credentialsPath.value)
    ensures provider == "openai" && !Truthy(openAiKey) ==>
            r == Failure("OpenAI API key required when using OpenAI provider")
    ensures provider == "vertex" && !(Truthy(projectId) && Truthy(location) && Truthy(credentialsPath)) ==>
            r == Failure("gcp_project_id, gcp_location, and credentials_path required for Vertex AI")
    ensures provider != "openai" && provider != "vertex" ==> r == Failure("Unsupported LLM provider: " + provider)
  {
    if provider == "openai" then
      if !Truthy(openAiKey) then Failure("OpenAI API key required when using OpenAI provider")
      else Success(OpenAiChat("gpt-4-turbo-preview", openAiKey.value))
    else if provider == "vertex" then
      if !(Truthy(projectId) && Truthy(location) && Truthy(credentialsPath)) then
        Failure("gcp_project_id, gcp_location, and credentials_path required for Vertex AI")
      else
        Success(VertexChat("gemini-1.5-flash", 2048, projectId.value, location.value, credentialsPath.value))
    else
      Failure("Unsupported LLM provider: " + provider)
  }

  /**
   * The constructor as written. In the "openai" branch the key is passed
   * positionally to `OpenAIEmbeddings`, whose acceptance of that is library
   * behaviour, given here as `positionalKeyAccepted`. If the call raises,
   * construction stops there; if it does not, its result only becomes a
   * keyword argument of `ChatOpenAI`, and building the store then reads
   * the local `embeddings`, which only the "vertex" branch assigns.
   */
  function InitAsWritten(provider: string, openAiKey: Option<string>, projectId: Option<string>,
                         location: Option<string>, credentialsPath: Option<string>,
                         positionalKeyAccepted: bool): (r: Result<Setup, InitError>)
    ensures r.Success? ==> provider == "vertex"
    ensures provider != "openai" ==> r == Init(provider, openAiKey, projectId, location, credentialsPath)
  {
    match ValidateChat(provider, openAiKey, projectId, location, credentialsPath)
    case Failure(message) => Failure(ValueError(message))
    case Success(chat) =>
      if chat.OpenAiChat? then
        if !positionalKeyAccepted then Failure(RaisedIn("OpenAIEmbeddings"))
        else Failure(UnboundLocalError("embeddings"))
      else Success(Setup(chat, VertexEmbedder("text-embedding-004", chat.project, chat.location)))
  }

  /**
   * An OpenAI configuration with a key passes validation and still cannot
   * be constructed, whatever `OpenAIEmbeddings` does with a positional key.
   */
  lemma OpenAiInitFails(openAiKey: Option<string>, projectId: Option<string>, location: Option<string>,
                        credentialsPath: Option<string>, positionalKeyAccepted: bool)
    requires Truthy(openAiKey)
    ensures ValidateChat("openai", openAiKey, projectId, location, credentialsPath).Success?
    ensures InitAsWritten("openai", openAiKey, projectId, location, credentialsPath, positionalKeyAccepted) ==
            if positionalKeyAccepted then Failure(UnboundLocalError("embeddings"))
            else Failure(RaisedIn("OpenAIEmbeddings"))
  {
  }

  /**
   * The constructor with `embeddings = OpenAIEmbeddings(openai_api_key=...)`
   * bound in the "openai" branch:
   * every configuration validation accepts yields clients, and each branch
   * embeds with its own provider's credentials.
   */
  function Init(provider: string, openAiKey: Option<string>, projectId: Option<string>,
                location: Option<string>, credentialsPath: Option<string>): (r: Result<Setup, InitError>)
    ensures r.Success? <==> ValidateChat(provider, openAiKey, projectId, location, credentialsPath).Success?
    ensures r.Failure? ==>
            r.error == ValueError(ValidateChat(provider, openAiKey, projectId, location, credentialsPath).error)
    ensures r.Success? ==> r.value.chat == ValidateChat(provider, openAiKey, projectId, location, credentialsPath).value
    ensures r.Success? && provider == "openai" ==> r.value.embedder == OpenAiEmbedder(openAiKey.value)
    ensures r.Success? && provider == "vertex" ==>
            r.value.embedder == VertexEmbedder("text-embedding-004", projectId.value, location.value)
  {
    match ValidateChat(provider, openAiKey, projectId, location, credentialsPath)
    case Failure(message) => Failure(ValueError(message))
    case Success(chat) =>
      if chat.OpenAiChat? then Success(Setup(chat, OpenAiEmbedder(chat.apiKey)))
      else Success(Setup(chat, VertexEmbedder("text-embedding-004", chat.project, chat.location)))
  }

  /**
   * The embeddings branch of `upload_documents`: "openai" needs an API key,
   * "vertex" needs project id and location, any other provider is
   * unsupported.
   */
  function ValidateEmbedder(provider: string, apiKey: Option<string>, projectId: Option<string>,
                            location: Option<string>): (r: Result<Embedder, string>)
    ensures r.Success? <==>
            (provider == "openai" && Truthy(apiKey)) ||
            (provider == "vertex" && Truthy(projectId) && Truthy(location))
    ensures r.Success? ==> (r.value.OpenAiEmbedder? <==> provider == "openai")
    ensures r.Success? && r.value.OpenAiEmbedder? ==> r.value.apiKey == apiKey.value
    ensures r.Success? && r.value.VertexEmbedder? ==>
            r.value == VertexEmbedder("textembedding-gecko", projectId.value, location.value)
    ensures provider == "openai" && !Truthy(apiKey) ==> r == Failure("OpenAI API key required")
    ensures provider == "vertex" && !(Truthy(projectId) && Truthy(location)) ==>
            r == Failure("project_id and location required for Vertex AI")
    ensures provider != "openai" && provider != "vertex" ==>
            r == Failure("Unsupported embedding provider: " + provider)
  {
    if provider == "openai" then
      if !Truthy(apiKey) then Failure("OpenAI API key required")
      else Success(OpenAiEmbedder(apiKey.value))
    else if provider == "vertex" then
      if !(Truthy(projectId) && Truthy(location)) then Failure("project_id and location required for Vertex AI")
      else Success(VertexEmbedder("textembedding-gecko", projectId.value, location.value))
    else
      Failure("Unsupported embedding provider: " + provider)
  }
}
