/**
 * The remote and daemon LLM adapter: a dispatch on the provider name that
 * builds the backing chat model once, and the completion call that speaks
 * the shared event protocol. The model's answers are parameters: the chunk
 * texts of a streamed reply with the way the stream ended, or the outcome
 * of a single non-streamed call.
 */
module OpenAIClient {
  import opened Wrappers
  import opened GenerationEvents

  /** The configuration values the dispatch reads. */
  datatype Config = Config(provider: string, ollamaHost: string, openaiApiKey: string, ollamaModel: string)

  /** Which LangChain integrations could be imported. */
  datatype Libraries = Libraries(chatOllama: bool, chatOpenAI: bool)

  /**
   * The backing chat model with the settings it was built with. Both are
   * built with temperature 0.7, which is a float and is not modelled.
   */
  datatype Backend =
    | ChatOllama(baseUrl: string, model: string, numCtx: int)
    | ChatOpenAI(apiKey: string, model: string, maxTokens: int)

  datatype InitError = ValueError(message: string) | RuntimeError(message: string)

  /** The constructed client: the provider it settled on and the model behind it. */
  datatype Client = Client(provider: string, llm: Backend)

  /** `x or default` for an optional string: `None` and `""` are both falsy. */
  function OrElse(x: Option<string>, default: string): (r: string)
    ensures x.Some? && x.value != "" ==> r == x.value
    ensures x.None? || x.value == "" ==> r == default
  {
    if x.Some? && x.value != "" then x.value else default
  }

  /** `_initialize_llm`. */
  function InitializeLlm(provider: string, baseUrl: Option<string>, apiKey: Option<string>, cfg: Config, libs: Libraries)
    : Result<Backend, InitError>
  {
    if provider == "ollama" then
      if !libs.chatOllama then Failure(RuntimeError("ChatOllama not available. Install with: pip install langchain-ollama"))
      else Success(ChatOllama(OrElse(baseUrl, cfg.ollamaHost), cfg.ollamaModel, 2048))
    else if provider == "openai" then
      if !libs.chatOpenAI then Failure(RuntimeError("ChatOpenAI not available. Install with: pip install langchain-openai"))
      else Success(ChatOpenAI(OrElse(apiKey, cfg.openaiApiKey), "gpt-3.5-turbo", 2048))
    else Failure(ValueError("Unknown provider: " + provider))
  }

  /** `EnhancedOpenAIClient(base_url, api_key, provider)`: `provider or PROVIDER`, then the dispatch. */
  function NewClient(baseUrl: Option<string>, apiKey: Option<string>, provider: Option<string>, cfg: Config, libs: Libraries)
    : Result<Client, InitError>
  {
    var p := OrElse(provider, cfg.provider);
    match InitializeLlm(p, baseUrl, apiKey, cfg, libs)
    case Success(llm) => Success(Client(p, llm))
    case Failure(e) => Failure(e)
  }

  /**
   * `create_chat_completion`. The arguments `model`, `temperature` and
   * `maxTokens` are accepted and not used: what is yielded depends only on
   * the backing model's answer.
   */
  method CreateChatCompletion(client: Client, model: string, maxTokens: int, stream: bool,
                              chunks: seq<string>, ending: Ending, invoked: Result<string, string>)
    returns (events: seq<Event>)
    ensures stream ==> events == StreamOf(chunks, ending)
    ensures !stream && invoked.Success? ==> events == [Event(invoked.value, true, None)]
    ensures !stream && invoked.Failure? ==> events == [ErrorEvent(invoked.error)]
  {
    if stream {
      events := EmitTokens(chunks, ending);
    } else if invoked.Success? {
      events := [Event(invoked.value, true, None)];
    } else {
      events := [ErrorEvent(invoked.error)];
    }
  }

  // ---------------------------------------------------------------- lemmas

  /** Only "ollama" and "openai" are accepted; every other provider is a `ValueError` naming it. */
  lemma UnknownProviderRejected(provider: string, baseUrl: Option<string>, apiKey: Option<string>, cfg: Config, libs: Libraries)
    ensures var r := InitializeLlm(provider, baseUrl, apiKey, cfg, libs);
      (r.Failure? && r.error.ValueError?) <==> provider != "ollama" && provider != "openai"
    ensures var r := InitializeLlm(provider, baseUrl, apiKey, cfg, libs);
      r.Failure? && r.error.ValueError? ==> r.error.message == "Unknown provider: " + provider
  {
  }

  /** A known provider fails only when its integration is missing, and then with `RuntimeError`. */
  lemma KnownProviderBuilds(provider: string, baseUrl: Option<string>, apiKey: Option<string>, cfg: Config, libs: Libraries)
    requires provider == "ollama" || provider == "openai"
    ensures var r := InitializeLlm(provider, baseUrl, apiKey, cfg, libs);
      r.Success? <==> (if provider == "ollama" then libs.chatOllama else libs.chatOpenAI)
    ensures var r := InitializeLlm(provider, baseUrl, apiKey, cfg, libs);
      r.Failure? ==> r.error.RuntimeError?
    ensures var r := InitializeLlm(provider, baseUrl, apiKey, cfg, libs);
      r.Success? ==> (r.value.ChatOllama? <==> provider == "ollama")
  {
  }

  /** With no explicit provider the configured one is used; an explicit one wins. */
  lemma ProviderDefaults(baseUrl: Option<string>, apiKey: Option<string>, provider: Option<string>, cfg: Config, libs: Libraries)
    ensures var r := NewClient(baseUrl, apiKey, provider, cfg, libs);
      r.Success? ==> r.value.provider == (if provider.Some? && provider.value != "" then provider.value else cfg.provider)
    ensures provider.None? ==> NewClient(baseUrl, apiKey, provider, cfg, libs) == NewClient(baseUrl, apiKey, Some(cfg.provider), cfg, libs)
  {
  }

  /** The Ollama model talks to the given base URL, or the configured host when none is given. */
  lemma OllamaSettings(baseUrl: Option<string>, apiKey: Option<string>, cfg: Config, libs: Libraries)
    requires libs.chatOllama
    ensures InitializeLlm("ollama", baseUrl, apiKey, cfg, libs)
      == Success(ChatOllama(if baseUrl.Some? && baseUrl.value != "" then baseUrl.value else cfg.ollamaHost, cfg.ollamaModel, 2048))
  {
  }
}
