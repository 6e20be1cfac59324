/**
 * The provider dispatch of youtube_samenvatting.py (`summarize`, `chat_with_transcript` and
 * the per-provider error handling of the functions they call). The provider's answer to a
 * request is foreign, so it is passed in as `backend`.
 */
module Gateway {
  import opened Wrappers
  import opened Text
  import opened Budget
  import opened Prompts

  /** The local model used when none is named (`model or "gpt-oss:20b"`). */
  const DefaultLocalModel: string := "gpt-oss:20b"

  /** The provider names the dispatchers recognise. */
  function ParseProvider(name: string): (p: Option<Provider>)
    ensures p == Some(Ollama) <==> name == "ollama"
    ensures p == Some(OpenAI) <==> name == "openai"
    ensures p == Some(Anthropic) <==> name == "anthropic"
  {
    if name == "ollama" then Some(Ollama)
    else if name == "openai" then Some(OpenAI)
    else if name == "anthropic" then Some(Anthropic)
    else None
  }

  /** Python truthiness of an optional key: neither `None` nor empty. */
  predicate HasKey(apiKey: Option<string>) {
    apiKey.Some? && apiKey.value != ""
  }

  /** `model or "gpt-oss:20b"`. */
  function ModelOrDefault(model: Option<string>): (m: string)
    ensures m != ""
    ensures model.Some? && model.value != "" ==> m == model.value
    ensures model.None? || model.value == "" ==> m == DefaultLocalModel
  {
    if model.Some? && model.value != "" then model.value else DefaultLocalModel
  }

  /** How a provider call can end: an answer, or an exception of some type. For the local
      model the HTTP layer's connection and timeout failures are told apart. */
  datatype FailureKind = ConnectionFailure | TimedOut | OtherFailure
  datatype Reply =
    | Answer(text: string)
    | Raised(failure: FailureKind, exceptionType: string, message: string)

  datatype GatewayError =
    | KeyRequired(provider: Provider)
    | UnknownProvider(name: string)
    | OllamaUnreachable
    | OllamaTimeout(mode: Mode, model: string)
    | ProviderFailed(provider: Provider, exceptionType: string, message: string)

  function DisplayName(p: Provider): string {
    match p
    case Ollama => "Ollama"
    case OpenAI => "OpenAI"
    case Anthropic => "Anthropic"
  }

  /** The message of the exception the dispatchers raise. */
  function ErrorMessage(e: GatewayError): string {
    match e
    case KeyRequired(p) => DisplayName(p) + " API key is vereist."
    case UnknownProvider(name) => "Onbekende provider: " + name
    case OllamaUnreachable => "Kan geen verbinding maken met Ollama. Is Ollama actief?"
    case OllamaTimeout(Summary, model) => "Ollama timeout - het model " + model + " reageert niet binnen 5 minuten."
    case OllamaTimeout(Chat, _) => "Ollama timeout - het model reageert niet binnen 3 minuten."
    case ProviderFailed(p, kind, message) => DisplayName(p) + " fout: " + kind + ": " + message
  }

  /** The checks a dispatcher makes before any call: a known provider, and a key for the
      hosted ones. On success, the provider and the key and model it is called with. */
  datatype Route = Route(provider: Provider, apiKey: string, model: string)

  function RouteFor(name: string, apiKey: Option<string>, model: Option<string>): (r: Result<Route, GatewayError>)
    ensures ParseProvider(name).None? ==> r == Failure(UnknownProvider(name))
    ensures ParseProvider(name).Some? && ParseProvider(name) != Some(Ollama) && !HasKey(apiKey)
      ==> r == Failure(KeyRequired(ParseProvider(name).value))
    ensures r.Success? <==> ParseProvider(name) == Some(Ollama) || (ParseProvider(name).Some? && HasKey(apiKey))
    ensures r.Success? ==> Some(r.value.provider) == ParseProvider(name)
    ensures r.Success? && r.value.provider == Ollama ==> r.value.model == ModelOrDefault(model)
    ensures r.Success? && r.value.provider != Ollama ==> Some(r.value.apiKey) == apiKey
  {
    match ParseProvider(name)
    case None => Failure(UnknownProvider(name))
    case Some(Ollama) => Success(Route(Ollama, "", ModelOrDefault(model)))
    case Some(p) => if HasKey(apiKey) then Success(Route(p, apiKey.value, "")) else Failure(KeyRequired(p))
  }

  /** What a provider's failure becomes: the local model's connection and timeout failures
      get their own messages, every other exception is reported with its type name. */
  function Interpret(route: Route, mode: Mode, reply: Reply): (r: Result<string, GatewayError>)
    ensures reply.Answer? <==> r.Success?
    ensures reply.Answer? ==> r.value == reply.text
    ensures reply.Raised? && route.provider != Ollama
      ==> r == Failure(ProviderFailed(route.provider, reply.exceptionType, reply.message))
    ensures reply.Raised? && route.provider == Ollama ==>
      && (reply.failure == ConnectionFailure ==> r == Failure(OllamaUnreachable))
      && (reply.failure == TimedOut ==> r == Failure(OllamaTimeout(mode, route.model)))
      && (reply.failure == OtherFailure ==> r == Failure(ProviderFailed(Ollama, reply.exceptionType, reply.message)))
    ensures r.Failure? ==> ProviderError(r.error)
  {
    match reply
    case Answer(text) => Success(text)
    case Raised(failure, kind, message) =>
      if route.provider != Ollama then Failure(ProviderFailed(route.provider, kind, message))
      else match failure
        case ConnectionFailure => Failure(OllamaUnreachable)
        case TimedOut => Failure(OllamaTimeout(mode, route.model))
        case OtherFailure => Failure(ProviderFailed(Ollama, kind, message))
  }

  /** An error that comes from the provider call itself, not from the checks before it. */
  predicate ProviderError(e: GatewayError) {
    e.OllamaUnreachable? || e.OllamaTimeout? || e.ProviderFailed?
  }

  /** `summarize(text, provider, api_key, model)`: a refused route is reported as such;
      otherwise the outcome is the provider's: its text unchanged when it answers, and a
      provider error only when it does not. */
  function Summarize(text: string, name: string, apiKey: Option<string>, model: Option<string>,
                     backend: Request -> Reply): (r: Result<string, GatewayError>)
    ensures RouteFor(name, apiKey, model).Failure? ==> r == Failure(RouteFor(name, apiKey, model).error)
    ensures RouteFor(name, apiKey, model).Success? ==>
      && (r.Success? <==> backend(SummaryRequest(RouteFor(name, apiKey, model).value.provider,
                                                 RouteFor(name, apiKey, model).value.apiKey,
                                                 RouteFor(name, apiKey, model).value.model, text)).Answer?)
      && (r.Success? ==> r.value == backend(SummaryRequest(RouteFor(name, apiKey, model).value.provider,
                                                           RouteFor(name, apiKey, model).value.apiKey,
                                                           RouteFor(name, apiKey, model).value.model, text)).text)
      && (r.Failure? ==> ProviderError(r.error))
  {
    match RouteFor(name, apiKey, model)
    case Failure(e) => Failure(e)
    case Success(route) =>
      Interpret(route, Summary, backend(SummaryRequest(route.provider, route.apiKey, route.model, text)))
  }

  /** `chat_with_transcript(transcript, question, chat_history, provider, api_key, model)`,
      with the same two outcomes as `Summarize`. */
  function ChatWithTranscript(transcript: string, question: string, history: seq<Message>, name: string,
                              apiKey: Option<string>, model: Option<string>,
                              backend: Request -> Reply): (r: Result<string, GatewayError>)
    ensures RouteFor(name, apiKey, model).Failure? ==> r == Failure(RouteFor(name, apiKey, model).error)
    ensures RouteFor(name, apiKey, model).Success? ==>
      && (r.Success? <==> backend(ChatRequest(RouteFor(name, apiKey, model).value.provider,
                                              RouteFor(name, apiKey, model).value.apiKey,
                                              RouteFor(name, apiKey, model).value.model,
                                              transcript, question, history)).Answer?)
      && (r.Success? ==> r.value == backend(ChatRequest(RouteFor(name, apiKey, model).value.provider,
                                                        RouteFor(name, apiKey, model).value.apiKey,
                                                        RouteFor(name, apiKey, model).value.model,
                                                        transcript, question, history)).text)
      && (r.Failure? ==> ProviderError(r.error))
  {
    match RouteFor(name, apiKey, model)
    case Failure(e) => Failure(e)
    case Success(route) =>
      Interpret(route, Chat, backend(ChatRequest(route.provider, route.apiKey, route.model, transcript, question, history)))
  }

  /** A missing key or an unknown provider is reported before any provider is called: the
      outcome then does not depend on the backend at all. */
  lemma RejectedBeforeAnyCall(text: string, question: string, history: seq<Message>, name: string,
                              apiKey: Option<string>, model: Option<string>, b1: Request -> Reply, b2: Request -> Reply)
    requires ParseProvider(name) != Some(Ollama) && !HasKey(apiKey)
    ensures Summarize(text, name, apiKey, model, b1) == Summarize(text, name, apiKey, model, b2)
    ensures ChatWithTranscript(text, question, history, name, apiKey, model, b1)
         == ChatWithTranscript(text, question, history, name, apiKey, model, b2)
    ensures ParseProvider(name).None? ==>
      Summarize(text, name, apiKey, model, b1) == Failure(UnknownProvider(name))
    ensures ParseProvider(name).Some? ==>
      ErrorMessage(Summarize(text, name, apiKey, model, b1).error)
        == (if name == "openai" then "OpenAI API key is vereist." else "Anthropic API key is vereist.")
  {
    RefusedRoute(text, question, history, name, apiKey, model, b1);
    RefusedRoute(text, question, history, name, apiKey, model, b2);
    if ParseProvider(name).Some? {
      KeyRequiredMessage(ParseProvider(name).value);
    }
  }

  /** A dispatcher whose route is refused reports the refusal itself. */
  lemma RefusedRoute(text: string, question: string, history: seq<Message>, name: string,
                     apiKey: Option<string>, model: Option<string>, backend: Request -> Reply)
    requires RouteFor(name, apiKey, model).Failure?
    ensures Summarize(text, name, apiKey, model, backend) == Failure(RouteFor(name, apiKey, model).error)
    ensures ChatWithTranscript(text, question, history, name, apiKey, model, backend)
         == Failure(RouteFor(name, apiKey, model).error)
  {
  }

  lemma KeyRequiredMessage(p: Provider)
    requires p != Ollama
    ensures ErrorMessage(KeyRequired(p))
         == if p == OpenAI then "OpenAI API key is vereist." else "Anthropic API key is vereist."
  {
    if p == OpenAI {
      OpenAIKeyMessage();
    } else {
      AnthropicKeyMessage();
    }
  }

  lemma OpenAIKeyMessage()
    ensures ErrorMessage(KeyRequired(OpenAI)) == "OpenAI API key is vereist."
  {
  }

  lemma AnthropicKeyMessage()
    ensures ErrorMessage(KeyRequired(Anthropic)) == "Anthropic API key is vereist."
  {
  }

  /** With a known provider and, for the hosted ones, a key, the provider is called with the
      request its builder makes, and its answer comes back unchanged. */
  lemma AnswerPassesThrough(text: string, name: string, apiKey: Option<string>, model: Option<string>,
                            backend: Request -> Reply, answer: string)
    requires ParseProvider(name) == Some(Ollama) || (ParseProvider(name).Some? && HasKey(apiKey))
    requires forall q :: backend(q) == Answer(answer)
    ensures Summarize(text, name, apiKey, model, backend) == Success(answer)
  {
  }

  /** The local model called when none is named is gpt-oss:20b, with its standard budget. */
  lemma LocalDefaultModel(text: string, model: Option<string>)
    requires model.None? || model == Some("")
    ensures RouteFor("ollama", None, model) == Success(Route(Ollama, "", "gpt-oss:20b"))
    ensures SummaryRequest(Ollama, "", "gpt-oss:20b", text).model == "gpt-oss:20b"
    ensures SummaryLimit(Ollama, "gpt-oss:20b") == 50000 - 3000 - 1824
  {
    DefaultModelBudget();
  }

  lemma DefaultModelBudget()
    ensures BaseLimit(Ollama, "gpt-oss:20b", Summary) == 50000
    ensures SummaryLimit(Ollama, "gpt-oss:20b") == 50000 - 3000 - 1824
  {
    DefaultModelRow();
    PromptLengths();
  }

  /** The local model's connection failure has its own message; any other exception is
      named by the exception's type and its message. */
  lemma LocalFailureMessages(route: Route, mode: Mode, kind: string, message: string)
    requires route.provider == Ollama
    ensures ErrorMessage(Interpret(route, mode, Raised(ConnectionFailure, kind, message)).error)
         == "Kan geen verbinding maken met Ollama. Is Ollama actief?"
    ensures ErrorMessage(Interpret(route, mode, Raised(OtherFailure, kind, message)).error)
         == "Ollama" + " fout: " + kind + ": " + message
  {
  }

  /** Every exception of a hosted provider is named by the provider, the exception's type and
      its message, whatever kind of failure it is. */
  lemma HostedFailureMessage(route: Route, mode: Mode, failure: FailureKind, kind: string, message: string)
    requires route.provider != Ollama
    ensures ErrorMessage(Interpret(route, mode, Raised(failure, kind, message)).error)
         == (if route.provider == OpenAI then "OpenAI" else "Anthropic") + " fout: " + kind + ": " + message
  {
  }

  lemma DefaultModelRow()
    ensures BaseLimit(Ollama, "gpt-oss:20b", Summary) == 50000
  {
    VariantOfModels("gpt-oss:20b");
    assert LimitKeyFor(Ollama, "gpt-oss:20b", Summary) == LimitKey(Ollama, Standard, Summary);
  }

  /** A local timeout names the model when summarising, and not when chatting. */
  lemma LocalTimeoutMessages(model: Option<string>, kind: string, message: string)
    ensures var route := RouteFor("ollama", None, model).value;
      && ErrorMessage(Interpret(route, Summary, Raised(TimedOut, kind, message)).error)
         == "Ollama timeout - het model " + ModelOrDefault(model) + " reageert niet binnen 5 minuten."
      && ErrorMessage(Interpret(route, Chat, Raised(TimedOut, kind, message)).error)
         == "Ollama timeout - het model reageert niet binnen 3 minuten."
  {
  }
}
