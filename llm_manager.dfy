/**
 * The LLM provider registry of Grey Hat AI: a fixed table of supported
 * providers and their models, the clients and API keys configured at run
 * time, the active provider/model pair, and the per-provider conversion of
 * a chat history into the request that is handed to the provider's SDK.
 *
 * The SDKs themselves are not modelled: whether a client library could be
 * imported is a constructor argument (`LlmDeps`), whether a client could be
 * built from a key is an argument of `SetApiKey`, and the provider call is
 * the function argument `complete` of `GenerateResponse`.
 */
module Llm {
  import opened Wrappers

  /** The providers of the `SUPPORTED_PROVIDERS` table, in table order. */
  datatype Provider = Gemini | Mistral | Groq

  /** The provider's key in the table. */
  function Name(p: Provider): string {
    match p
    case Gemini => "gemini"
    case Mistral => "mistral"
    case Groq => "groq"
  }

  /** The membership test `provider in SUPPORTED_PROVIDERS`, as a lookup. */
  function Parse(s: string): (r: Option<Provider>)
    ensures forall p :: r == Some(p) <==> Name(p) == s
  {
    if s == "gemini" then Some(Gemini)
    else if s == "mistral" then Some(Mistral)
    else if s == "groq" then Some(Groq)
    else None
  }

  datatype ProviderInfo = ProviderInfo(models: seq<string>, defaultModel: string)

  /** One row of `SUPPORTED_PROVIDERS`; every default model is one of the listed models. */
  function Info(p: Provider): (r: ProviderInfo)
    ensures r.defaultModel in r.models
    ensures forall i, j :: 0 <= i < j < |r.models| ==> r.models[i] != r.models[j]
  {
    match p
    case Gemini =>
      ProviderInfo(["gemini-pro", "gemini-pro-vision", "gemini-1.5-pro", "gemini-1.5-flash"],
                   "gemini-1.5-pro")
    case Mistral =>
      ProviderInfo(["mistral-tiny", "mistral-small", "mistral-medium", "mistral-large-latest",
                    "codestral-latest"],
                   "mistral-large-latest")
    case Groq =>
      ProviderInfo(["llama3-8b-8192", "llama3-70b-8192", "mixtral-8x7b-32768", "gemma-7b-it"],
                   "llama3-70b-8192")
  }

  /** The table's keys. */
  const SupportedNames: set<string> := {"gemini", "mistral", "groq"}

  /**
   * `get_available_models(provider)`: the models of one provider when a
   * non-empty name is given (nothing if it is not supported), and the models
   * of every provider when the name is `None` or empty.
   */
  function GetAvailableModels(provider: Option<string>): (r: map<string, seq<string>>)
    ensures forall k :: k in r ==> Parse(k).Some? && r[k] == Info(Parse(k).value).models
    ensures provider.None? || provider == Some("") ==> r.Keys == SupportedNames
    ensures provider.Some? && provider.value != "" ==>
      r.Keys == (if Parse(provider.value).Some? then {provider.value} else {})
  {
    if provider.Some? && provider.value != "" then
      match Parse(provider.value)
      case Some(p) => map[provider.value := Info(p).models]
      case None => map[]
    else
      map[Name(Gemini) := Info(Gemini).models,
          Name(Mistral) := Info(Mistral).models,
          Name(Groq) := Info(Groq).models]
  }

  /** A chat message `{"role": ..., "content": ...}`; also Mistral's `ChatMessage`. */
  datatype Message = Message(role: string, content: string)

  /** A Gemini history entry `{"role": ..., "parts": [...]}`. */
  datatype GeminiContent = GeminiContent(role: string, parts: seq<string>)

  /** Gemini knows two roles: "user" stays "user", every other role becomes "model". */
  function GeminiRole(role: string): (r: string)
    ensures r == "user" || r == "model"
    ensures r == "user" <==> role == "user"
  {
    if role == "user" then "user" else "model"
  }

  function ToGemini(m: Message): GeminiContent {
    GeminiContent(GeminiRole(m.role), [m.content])
  }

  /** The history as Gemini's `start_chat` receives it, one entry per message. */
  function GeminiHistory(history: seq<Message>): seq<GeminiContent> {
    if history == [] then []
    else GeminiHistory(history[..|history| - 1]) + [ToGemini(history[|history| - 1])]
  }

  /** The Gemini history has one entry per message, in order, with the message's content. */
  lemma {:induction false} GeminiHistoryAt(history: seq<Message>, i: nat)
    requires i < |history|
    ensures |GeminiHistory(history)| == |history|
    ensures GeminiHistory(history)[i] ==
      GeminiContent(GeminiRole(history[i].role), [history[i].content])
  {
    var n := |history| - 1;
    if i < n {
      GeminiHistoryAt(history[..n], i);
    } else if n > 0 {
      GeminiHistoryAt(history[..n], 0);
    }
  }

  /** Reads a Gemini history back as chat messages. */
  function FromGemini(contents: seq<GeminiContent>): seq<Message> {
    if contents == [] then []
    else
      var c := contents[|contents| - 1];
      FromGemini(contents[..|contents| - 1]) +
        [Message(c.role, if c.parts == [] then "" else c.parts[0])]
  }

  /** Only user/model roles: the history Gemini itself would produce. */
  predicate GeminiNative(history: seq<Message>) {
    forall i :: 0 <= i < |history| ==> history[i].role == "user" || history[i].role == "model"
  }

  /**
   * The conversion loses nothing but role names Gemini does not know:
   * reading the Gemini history back gives every message, in order, with its
   * content and with its role mapped by `GeminiRole`.
   */
  lemma {:induction false} GeminiHistoryReadBack(history: seq<Message>)
    ensures |FromGemini(GeminiHistory(history))| == |history|
    ensures forall i :: 0 <= i < |history| ==>
      FromGemini(GeminiHistory(history))[i] == Message(GeminiRole(history[i].role), history[i].content)
  {
    if history != [] {
      var n := |history| - 1;
      GeminiHistoryReadBack(history[..n]);
      var g := GeminiHistory(history[..n]);
      var full := g + [ToGemini(history[n])];
      assert GeminiHistory(history) == full;
      assert full[..|full| - 1] == g;
      forall i | 0 <= i < n ensures history[..n][i] == history[i] { }
    }
  }

  /** For a history that already uses Gemini's roles, the round trip is the identity. */
  lemma GeminiHistoryRoundTrip(history: seq<Message>)
    requires GeminiNative(history)
    ensures FromGemini(GeminiHistory(history)) == history
  {
    GeminiHistoryReadBack(history);
  }

  /** The loop of `_generate_gemini` that builds `chat_history`. */
  method ConvertGeminiHistory(history: seq<Message>) returns (chatHistory: seq<GeminiContent>)
    ensures chatHistory == GeminiHistory(history)
    ensures |chatHistory| == |history|
  {
    chatHistory := [];
    var i := 0;
    while i < |history|
      invariant 0 <= i <= |history|
      invariant chatHistory == GeminiHistory(history[..i])
    {
      var msg := history[i];
      var role := if msg.role == "user" then "user" else "model";
      chatHistory := chatHistory + [GeminiContent(role, [msg.content])];
      assert history[..i + 1][..i] == history[..i];
      i := i + 1;
    }
    assert history[..i] == history;
    if history != [] {
      GeminiHistoryAt(history, 0);
    }
  }

  /**
   * The loops of `_generate_mistral` and `_generate_groq`: the history is
   * copied message by message and the prompt follows as a final user message.
   */
  method ChatMessages(history: seq<Message>, prompt: string) returns (messages: seq<Message>)
    ensures messages == history + [Message("user", prompt)]
    ensures |messages| == |history| + 1
  {
    messages := [];
    var i := 0;
    while i < |history|
      invariant 0 <= i <= |history|
      invariant messages == history[..i]
    {
      var msg := history[i];
      messages := messages + [Message(msg.role, msg.content)];
      assert history[..i + 1] == history[..i] + [history[i]];
      i := i + 1;
    }
    assert history[..i] == history;
    messages := messages + [Message("user", prompt)];
  }

  /** The default of `generate_response`'s `max_tokens`. */
  const DefaultMaxTokens: int := 4000

  /** What `generate_response` hands to the provider's SDK. */
  datatype ProviderRequest =
    | GeminiChat(model: string, history: seq<GeminiContent>, prompt: string, maxOutputTokens: int)
    | ChatCompletion(target: Provider, model: string, messages: seq<Message>, maxTokens: int)
  {
    function Provider(): Provider {
      if GeminiChat? then Gemini else target
    }
  }

  /** `LLMResponse` without the usage figures and the raw SDK object. */
  datatype LlmResponse = LlmResponse(content: string, model: string, provider: string)

  /** Which client libraries could be imported. */
  datatype LlmDeps = LlmDeps(genai: bool, mistralClient: bool, groq: bool) {
    function Has(p: Provider): bool {
      match p
      case Gemini => genai
      case Mistral => mistralClient
      case Groq => groq
    }
  }

  /** A configured SDK client, identified by the key it was built with. */
  datatype Client = Client(provider: Provider, apiKey: string)

  /** The result of `get_status`. */
  datatype LlmStatus = LlmStatus(
    activeProvider: Option<string>,
    activeModel: Option<string>,
    configuredProviders: set<string>,
    availableProviders: map<string, bool>)

  class LlmManager {
    const deps: LlmDeps
    var activeProvider: Option<Provider>
    var activeModel: Option<string>
    var clients: map<Provider, Client>
    var apiKeys: map<Provider, string>

    /**
     * Provider and model are set together, only a configured provider can
     * be active, a client exists only for a provider whose key was recorded
     * and whose library is installed.
     */
    ghost predicate Valid()
      reads this
    {
      && (activeProvider.Some? <==> activeModel.Some?)
      && (activeProvider.Some? ==> activeProvider.value in clients)
      && clients.Keys <= apiKeys.Keys
      && (forall p :: p in clients ==> deps.Has(p) && clients[p].provider == p)
    }

    constructor (deps: LlmDeps)
      ensures Valid()
      ensures this.deps == deps
      ensures activeProvider == None && activeModel == None
      ensures clients == map[] && apiKeys == map[]
    {
      this.deps := deps;
      activeProvider := None;
      activeModel := None;
      clients := map[];
      apiKeys := map[];
    }

    /**
     * `set_api_key(provider, api_key)`. `sdkOk` says whether configuring the
     * SDK with this key succeeds (False: it raised).
     */
    method SetApiKey(provider: string, apiKey: string, sdkOk: bool) returns (ok: bool)
      requires Valid()
      modifies this`clients, this`apiKeys
      ensures Valid()
      ensures Parse(provider).None? ==> !ok && clients == old(clients) && apiKeys == old(apiKeys)
      ensures Parse(provider).Some? ==> apiKeys == old(apiKeys)[Parse(provider).value := apiKey]
      ensures ok <==> Parse(provider).Some? && deps.Has(Parse(provider).value) && sdkOk
      ensures ok ==> clients == old(clients)[Parse(provider).value := Client(Parse(provider).value, apiKey)]
      ensures !ok ==> clients == old(clients)
    {
      var p := Parse(provider);
      if p.None? {
        return false;
      }
      apiKeys := apiKeys[p.value := apiKey];
      if !deps.Has(p.value) {
        // missing dependencies
        return false;
      }
      if !sdkOk {
        // the SDK raised while being configured
        return false;
      }
      clients := clients[p.value := Client(p.value, apiKey)];
      return true;
    }

    /**
     * `set_active_model(provider, model)`: a supported, configured provider
     * becomes active with the given model, known or not, or with the
     * provider's default model when none is given.
     */
    method SetActiveModel(provider: string, model: Option<string>) returns (ok: bool)
      requires Valid()
      modifies this`activeProvider, this`activeModel
      ensures Valid()
      ensures ok <==> Parse(provider).Some? && Parse(provider).value in clients
      ensures !ok ==> activeProvider == old(activeProvider) && activeModel == old(activeModel)
      ensures ok ==> activeProvider == Parse(provider)
      ensures ok ==> activeModel == Some(model.GetOr(Info(Parse(provider).value).defaultModel))
      ensures ok && model.None? ==> activeModel.value in Info(activeProvider.value).models
    {
      var p := Parse(provider);
      if p.None? {
        return false;
      }
      if p.value !in clients {
        return false;
      }
      var m := if model.None? then Info(p.value).defaultModel else model.value;
      activeProvider := p;
      activeModel := Some(m);
      return true;
    }

    /** Python's `not self.active_provider or not self.active_model`. */
    predicate NoActiveModel()
      reads this
    {
      activeProvider.None? || activeModel.None? || activeModel.value == ""
    }

    /**
     * `generate_response(prompt, history, max_tokens)`: nothing is sent when
     * no model is active; otherwise exactly one request goes to the active
     * provider, and its reply (None when the SDK raised) becomes the response.
     */
    method GenerateResponse(complete: ProviderRequest -> Option<string>, prompt: string,
                            history: Option<seq<Message>> := None,
                            maxTokens: int := DefaultMaxTokens)
      returns (request: Option<ProviderRequest>, response: Option<LlmResponse>)
      requires Valid()
      ensures request.None? <==> NoActiveModel()
      ensures request.Some? ==>
        && request.value.Provider() == activeProvider.value
        && request.value.model == activeModel.value
      ensures request.Some? && activeProvider.value == Gemini ==>
        request.value == GeminiChat(activeModel.value, GeminiHistory(history.GetOr([])),
                                    prompt, maxTokens)
      ensures request.Some? && activeProvider.value != Gemini ==>
        request.value == ChatCompletion(activeProvider.value, activeModel.value,
                                        history.GetOr([]) + [Message("user", prompt)], maxTokens)
      ensures response.Some? <==> request.Some? && complete(request.value).Some?
      ensures response.Some? ==>
        response.value == LlmResponse(complete(request.value).value, activeModel.value,
                                      Name(activeProvider.value))
    {
      if NoActiveModel() {
        return None, None;
      }
      var h := if history.None? then [] else history.value;
      var model := activeModel.value;
      match activeProvider.value {
        case Gemini =>
          var chatHistory := ConvertGeminiHistory(h);
          request := Some(GeminiChat(model, chatHistory, prompt, maxTokens));
        case Mistral =>
          var messages := ChatMessages(h, prompt);
          request := Some(ChatCompletion(Mistral, model, messages, maxTokens));
        case Groq =>
          var messages := ChatMessages(h, prompt);
          request := Some(ChatCompletion(Groq, model, messages, maxTokens));
      }
      var reply := complete(request.value);
      response := if reply.Some? then Some(LlmResponse(reply.value, model, Name(activeProvider.value)))
                  else None;
    }

    /** `is_provider_available(provider)`: supported, library installed and configured. */
    function IsProviderAvailable(provider: string): (r: bool)
      reads this
      ensures r ==> provider in SupportedNames
      ensures Valid() ==> (r <==> Parse(provider).Some? && Parse(provider).value in clients)
    {
      match Parse(provider)
      case None => false
      case Some(p) => deps.Has(p) && p in clients
    }

    /** `get_status()`. */
    function GetStatus(): (s: LlmStatus)
      reads this
      requires Valid()
      ensures s.configuredProviders <= SupportedNames
      ensures forall p :: Name(p) in s.configuredProviders <==> IsProviderAvailable(Name(p))
      ensures s.activeProvider.Some? ==> s.activeProvider.value in s.configuredProviders
      ensures s.availableProviders.Keys == SupportedNames
      ensures forall p :: s.availableProviders[Name(p)] == deps.Has(p)
      ensures s.activeModel == activeModel
      ensures s.activeProvider == if activeProvider.Some? then Some(Name(activeProvider.value)) else None
    {
      LlmStatus(
        if activeProvider.Some? then Some(Name(activeProvider.value)) else None,
        activeModel,
        set p | p in clients :: Name(p),
        map[Name(Gemini) := deps.genai, Name(Mistral) := deps.mistralClient, Name(Groq) := deps.groq])
    }
  }
}
