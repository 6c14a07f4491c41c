/**
 * Text-generation services for Anthropic and OpenAI: how each assembles its
 * request from a prompt and an optional system prompt, how the OpenAI stream
 * is filtered, the display name, and the factory that picks a service by
 * name. The remote calls are function values held by the service.
 */
module Llm {
  import opened Wrappers
  import opened Text
  import Config

  datatype Message = Message(role: string, content: string)

  /** The max_tokens both services send. */
  const MAX_TOKENS: nat := 4096

  /** The keyword arguments of an Anthropic messages call; `system` is present or absent. */
  datatype AnthropicRequest = AnthropicRequest(model: string, maxTokens: nat, messages: seq<Message>, system: Option<string>)

  /** The arguments of an OpenAI chat-completions call. */
  datatype OpenAIRequest = OpenAIRequest(model: string, messages: seq<Message>, maxTokens: nat, stream: bool)

  /** The delta content of the first choice of one streamed OpenAI chunk (None when the field is null). */
  type Delta = Option<string>

  datatype LlmService =
    | AnthropicLLM(model: string, messagesCreate: AnthropicRequest -> string, messagesStream: AnthropicRequest -> seq<string>)
    | OpenAILLM(model: string, chatCreate: OpenAIRequest -> string, chatStream: OpenAIRequest -> seq<Delta>)

  /** The kwargs AnthropicLLM.generate and generate_stream pass to the client. */
  function AnthropicKwargs(model: string, prompt: string, systemPrompt: Option<string>): (r: AnthropicRequest)
    ensures r.model == model && r.maxTokens == MAX_TOKENS
    ensures r.messages == [Message("user", prompt)]
    ensures r.system.Some? <==> Truthy(systemPrompt)
    ensures r.system.Some? ==> r.system.value == systemPrompt.value
  {
    var kwargs := AnthropicRequest(model, MAX_TOKENS, [Message("user", prompt)], None);
    if Truthy(systemPrompt) then kwargs.(system := systemPrompt) else kwargs
  }

  /** The message list OpenAILLM.generate and generate_stream build. */
  function OpenAIMessages(prompt: string, systemPrompt: Option<string>): (msgs: seq<Message>)
    ensures |msgs| == if Truthy(systemPrompt) then 2 else 1
    ensures msgs[|msgs| - 1] == Message("user", prompt)
    ensures Truthy(systemPrompt) ==> msgs[0] == Message("system", systemPrompt.value)
    ensures forall i :: 0 <= i < |msgs| - 1 ==> msgs[i].role == "system"
  {
    var messages := if Truthy(systemPrompt) then [Message("system", systemPrompt.value)] else [];
    messages + [Message("user", prompt)]
  }

  /**
   * generate: the completed answer. Anthropic gets the kwargs above; OpenAI
   * gets a non-streaming request with the model, the message list and MAX_TOKENS.
   */
  function Generate(service: LlmService, prompt: string, systemPrompt: Option<string>): (answer: string)
    ensures service.AnthropicLLM? ==> answer == service.messagesCreate(AnthropicKwargs(service.model, prompt, systemPrompt))
    ensures service.OpenAILLM? ==>
      answer == service.chatCreate(OpenAIRequest(service.model, OpenAIMessages(prompt, systemPrompt), MAX_TOKENS, false))
  {
    match service
    case AnthropicLLM(model, complete, _) => complete(AnthropicKwargs(model, prompt, systemPrompt))
    case OpenAILLM(model, complete, _) =>
      complete(OpenAIRequest(model, OpenAIMessages(prompt, systemPrompt), MAX_TOKENS, false))
  }

  /** The text a delta carries; a null delta carries none. */
  function DeltaText(d: Delta): string {
    if d.Some? then d.value else ""
  }

  /** The contents of the non-empty deltas, in arrival order. */
  function NonEmptyDeltas(ds: seq<Delta>): seq<string> {
    if ds == [] then []
    else NonEmptyDeltas(ds[..|ds| - 1]) + (if Truthy(ds[|ds| - 1]) then [ds[|ds| - 1].value] else [])
  }

  /** "".join(parts). */
  function Concat(parts: seq<string>): string {
    if parts == [] then "" else Concat(parts[..|parts| - 1]) + parts[|parts| - 1]
  }

  /** The whole text a stream of deltas spells out. */
  function StreamText(ds: seq<Delta>): string {
    if ds == [] then "" else StreamText(ds[..|ds| - 1]) + DeltaText(ds[|ds| - 1])
  }

  /**
   * The loop of OpenAILLM.generate_stream: yields exactly the non-empty
   * deltas, in order, and so spells out the same text as the whole stream.
   */
  method FilterDeltas(ds: seq<Delta>) returns (texts: seq<string>)
    ensures texts == NonEmptyDeltas(ds)
    ensures forall i :: 0 <= i < |texts| ==> texts[i] != ""
    ensures Concat(texts) == StreamText(ds)
  {
    texts := [];
    for i := 0 to |ds|
      invariant texts == NonEmptyDeltas(ds[..i])
      invariant forall j :: 0 <= j < |texts| ==> texts[j] != ""
      invariant Concat(texts) == StreamText(ds[..i])
    {
      ghost var prefix := ds[..i + 1];
      assert prefix[..i] == ds[..i] && prefix[i] == ds[i];
      assert StreamText(prefix) == StreamText(ds[..i]) + DeltaText(ds[i]);
      if ds[i].Some? && ds[i].value != "" {
        ghost var before := texts;
        texts := texts + [ds[i].value];
        assert texts[..|texts| - 1] == before;
        assert Concat(texts) == Concat(before) + ds[i].value;
      } else {
        assert DeltaText(ds[i]) == "";
        assert StreamText(prefix) == StreamText(ds[..i]);
      }
    }
    assert ds[..|ds|] == ds;
  }

  /** generate_stream: the fragments the generator yields. */
  method GenerateStream(service: LlmService, prompt: string, systemPrompt: Option<string>) returns (fragments: seq<string>)
    ensures fragments == Streamed(service, prompt, systemPrompt)
  {
    match service
    case AnthropicLLM(model, _, textStream) =>
      fragments := textStream(AnthropicKwargs(model, prompt, systemPrompt));
    case OpenAILLM(model, _, deltas) =>
      var ds := deltas(OpenAIRequest(model, OpenAIMessages(prompt, systemPrompt), MAX_TOKENS, true));
      fragments := FilterDeltas(ds);
  }

  /** What generate_stream yields, as a value. */
  function Streamed(service: LlmService, prompt: string, systemPrompt: Option<string>): seq<string> {
    match service
    case AnthropicLLM(model, _, textStream) => textStream(AnthropicKwargs(model, prompt, systemPrompt))
    case OpenAILLM(model, _, deltas) =>
      NonEmptyDeltas(deltas(OpenAIRequest(model, OpenAIMessages(prompt, systemPrompt), MAX_TOKENS, true)))
  }

  /** The provider label the `name` property starts with. */
  function Label(service: LlmService): string {
    if service.AnthropicLLM? then "Anthropic" else "OpenAI"
  }

  /** The `name` property: the provider label, then the model in parentheses. */
  function Name(service: LlmService): (name: string)
    ensures var provider := Label(service);
      && |name| == |provider| + 2 + |service.model| + 1
      && name[..|provider|] == provider
      && name[|provider|..|provider| + 2] == " ("
      && name[|provider| + 2..|name| - 1] == service.model
      && name[|name| - 1] == ')'
  {
    Label(service) + " (" + service.model + ")"
  }

  /** Two services with the same name use the same provider and the same model. */
  lemma NameIdentifiesService(a: LlmService, b: LlmService)
    requires Name(a) == Name(b)
    ensures a.AnthropicLLM? == b.AnthropicLLM? && a.model == b.model
  {
    assert Name(a)[0] == Label(a)[0] && Name(b)[0] == Label(b)[0];
    assert Label(a) == Label(b);
  }

  /** The remote calls a factory can wire into the service it builds. */
  datatype LlmBackends = LlmBackends(
    anthropicComplete: AnthropicRequest -> string,
    anthropicStream: AnthropicRequest -> seq<string>,
    openaiComplete: OpenAIRequest -> string,
    openaiStream: OpenAIRequest -> seq<Delta>)

  /** `provider or Config.DEFAULT_LLM`. */
  function ResolveProvider(provider: Option<string>, default: string): string {
    if Truthy(provider) then provider.value else default
  }

  /** get_llm_service: a missing key fails before any client is built. */
  function GetLlmService(provider: Option<string>, settings: Config.Settings, backends: LlmBackends): (r: Result<LlmService>)
    ensures var p := ResolveProvider(provider, settings.defaultLlm);
      && (r.Success? <==> Config.ValidateLlmConfig(p, settings))
      && (p == "anthropic" && settings.anthropicApiKey == "" ==>
            r == Failure("ANTHROPIC_API_KEY is required for Anthropic LLM"))
      && (p == "openai" && settings.openaiApiKey == "" ==>
            r == Failure("OPENAI_API_KEY is required for OpenAI LLM"))
      && (p != "anthropic" && p != "openai" ==> r == Failure("Unknown LLM provider: " + p))
      && (r.Success? ==> (r.value.AnthropicLLM? <==> p == "anthropic"))
  {
    var p := ResolveProvider(provider, settings.defaultLlm);
    if p == "anthropic" then
      if settings.anthropicApiKey == "" then Failure("ANTHROPIC_API_KEY is required for Anthropic LLM")
      else Success(AnthropicLLM(Config.ANTHROPIC_MODEL, backends.anthropicComplete, backends.anthropicStream))
    else if p == "openai" then
      if settings.openaiApiKey == "" then Failure("OPENAI_API_KEY is required for OpenAI LLM")
      else Success(OpenAILLM(Config.OPENAI_MODEL, backends.openaiComplete, backends.openaiStream))
    else
      Failure("Unknown LLM provider: " + p)
  }

  /** With no provider named, the factory builds the configured default. */
  lemma DefaultLlmProvider(settings: Config.Settings, backends: LlmBackends)
    ensures GetLlmService(None, settings, backends) == GetLlmService(Some(settings.defaultLlm), settings, backends)
    ensures GetLlmService(Some(""), settings, backends) == GetLlmService(None, settings, backends)
  {
  }

  /** A service from the factory is named after its provider and configured model. */
  lemma FactoryServiceName(provider: Option<string>, settings: Config.Settings, backends: LlmBackends)
    requires GetLlmService(provider, settings, backends).Success?
    ensures var name := Name(GetLlmService(provider, settings, backends).value);
      || name == "Anthropic (" + Config.ANTHROPIC_MODEL + ")"
      || name == "OpenAI (" + Config.OPENAI_MODEL + ")"
  {
  }
}
