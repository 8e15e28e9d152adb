/**
 * The `chat-with-agent` edge function: one chat turn for a stored agent.
 * It finds the agent, refuses an inactive one, picks the provider from the
 * model name, finds that provider's key, builds the provider's payload from
 * the agent prompt, the history and the new message, makes a single request
 * and reads the reply text out of the provider's response document.
 */
module ChatWithAgent {
  import opened Wrappers
  import opened Text
  import opened Lists
  import opened Js
  import opened Store
  import opened Schema

  /** The provider families the handler dispatches to. */
  datatype Provider = OpenAi | Anthropic

  function ProviderName(p: Provider): string {
    match p
    case OpenAi => "openai"
    case Anthropic => "anthropic"
  }

  /** One turn of the conversation history the caller sends. */
  datatype Turn = Turn(role: string, content: string)

  /** One entry of a provider's `messages` array. */
  datatype ChatMessage = ChatMessage(role: string, content: string)

  /** The request body: `{agentId, message, conversationHistory = []}`. */
  datatype ChatRequest = ChatRequest(agentId: Field<string>, message: string, history: Field<seq<Turn>>)

  /** Everything the handler can throw. */
  datatype ChatError =
    | RequestNotJson(syntaxError: string)
    | AgentNotFound(dbMessage: string)
    | AgentInactive
    | UnsupportedModel(model: string)
    | ApiKeyNotFound(provider: string)
    | ScriptError(typeError: string)
    | ProviderFailed(provider: string, status: nat)
    | ResponseNotJson(syntaxError: string)
    | FetchFailed(message: string)

  /** `error.message` of each thrown error. */
  function ErrorMessage(e: ChatError): string {
    match e
    case RequestNotJson(m) => m
    case AgentNotFound(m) => "Agente não encontrado: " + m
    case AgentInactive => "Este agente está desativado"
    case UnsupportedModel(model) => "Modelo não suportado: " + model
    case ApiKeyNotFound(provider) => "Chave de API para " + provider + " não encontrada"
    case ScriptError(m) => m
    case ProviderFailed(provider, status) => "Erro no " + ToUpperAscii(provider) + ": " + NatToString(status)
    case ResponseNotJson(m) => m
    case FetchFailed(m) => m
  }

  /** The provider family a model name belongs to, by prefix. */
  function ResolveProvider(model: string): (r: Result<Provider, ChatError>)
    ensures r == Success(OpenAi) <==> StartsWith(model, "gpt")
    ensures r == Success(Anthropic) <==> StartsWith(model, "claude")
    ensures r.Failure? <==> !StartsWith(model, "gpt") && !StartsWith(model, "claude")
    ensures r.Failure? ==> r.error == UnsupportedModel(model)
  {
    if StartsWith(model, "gpt") then
      PrefixesExclude(model, "gpt", "claude");
      Success(OpenAi)
    else if StartsWith(model, "claude") then Success(Anthropic)
    else Failure(UnsupportedModel(model))
  }

  /** Worked example of `ResolveProvider`: the mock data's "gemini-pro" is outside both families and is refused. */
  lemma GeminiIsUnsupported()
    ensures ResolveProvider("gemini-pro") == Failure(UnsupportedModel("gemini-pro"))
    ensures ErrorMessage(ResolveProvider("gemini-pro").error) == "Modelo não suportado: gemini-pro"
  {
    assert "gemini-pro"[..3][1] != "gpt"[1];
    PrefixesExclude("gemini-pro", "g", "claude");
  }

  /** What the preliminary checks establish before any request is built. */
  datatype Plan = Plan(agent: AgentRow, provider: Provider, apiKey: string, endpoint: Option<string>)

  /**
   * The checks, in the handler's order: the agent lookup (first query), the
   * active flag, the model prefix, the key lookup for the provider (second query).
   */
  function Preflight(req: ChatRequest, agents: seq<AgentRow>, keys: seq<ApiKeyRow>, faults: Faults): (r: Result<Plan, ChatError>)
    ensures r.Success? ==>
      && r.value.agent in agents
      && r.value.agent.agentId == Interpolate(req.agentId)
      && r.value.agent.active == Some(true)
      && ResolveProvider(r.value.agent.model) == Success(r.value.provider)
      && exists k :: k in keys && k.provider == ProviderName(r.value.provider)
                     && k.apiKey == r.value.apiKey && k.endpoint == r.value.endpoint
    ensures var lookup := Single(faults.first, AgentsWithId(agents, Interpolate(req.agentId)));
      lookup.Failure? ==> r == Failure(AgentNotFound(lookup.error.message))
    ensures var lookup := Single(faults.first, AgentsWithId(agents, Interpolate(req.agentId)));
      lookup.Success? && lookup.value.active == Some(true) && ResolveProvider(lookup.value.model).Failure? ==>
        r == Failure(UnsupportedModel(lookup.value.model))
    ensures var lookup := Single(faults.first, AgentsWithId(agents, Interpolate(req.agentId)));
      lookup.Success? && lookup.value.active == Some(true) && ResolveProvider(lookup.value.model).Success? ==>
        var p := ResolveProvider(lookup.value.model).value;
        var key := Single(faults.second, KeysFor(keys, ProviderName(p)));
        && (key.Failure? ==> r == Failure(ApiKeyNotFound(ProviderName(p))))
        && (key.Success? ==> r == Success(Plan(lookup.value, p, key.value.apiKey, key.value.endpoint)))
  {
    var candidates := AgentsWithId(agents, Interpolate(req.agentId));
    match Single(faults.first, candidates)
    case Failure(e) => Failure(AgentNotFound(e.message))
    case Success(agent) =>
      assert candidates[0] in candidates;
      if agent.active != Some(true) then Failure(AgentInactive)
      else match ResolveProvider(agent.model)
        case Failure(e) => Failure(e)
        case Success(p) =>
          var matched := KeysFor(keys, ProviderName(p));
          match Single(faults.second, matched)
          case Failure(_) => Failure(ApiKeyNotFound(ProviderName(p)))
          case Success(key) =>
            assert matched[0] in matched;
            Success(Plan(agent, p, key.apiKey, key.endpoint))
  }

  /** An agent whose lookup fails, that is inactive, or whose model is unsupported is refused
      whatever the key table holds: those checks come before the key lookup. */
  lemma EarlyRefusalsIgnoreKeys(req: ChatRequest, agents: seq<AgentRow>, keys: seq<ApiKeyRow>, faults: Faults,
                                otherKeys: seq<ApiKeyRow>, otherFault: Option<DbError>)
    requires Preflight(req, agents, keys, faults).Failure?
    requires !Preflight(req, agents, keys, faults).error.ApiKeyNotFound?
    ensures Preflight(req, agents, otherKeys, Faults(faults.first, otherFault)) == Preflight(req, agents, keys, faults)
  {
  }

  /** An inactive agent is refused whatever its model is. */
  lemma InactiveBeforeModel(req: ChatRequest, agents: seq<AgentRow>, keys: seq<ApiKeyRow>, faults: Faults)
    requires Single(faults.first, AgentsWithId(agents, Interpolate(req.agentId))).Success?
    requires Single(faults.first, AgentsWithId(agents, Interpolate(req.agentId))).value.active != Some(true)
    ensures Preflight(req, agents, keys, faults) == Failure(AgentInactive)
  {
  }

  /** The key lookup is made for the provider the model resolves to, and its failure names it. */
  lemma MissingKeyNamesProvider(req: ChatRequest, agents: seq<AgentRow>, keys: seq<ApiKeyRow>, faults: Faults)
    requires Preflight(req, agents, keys, faults).Failure?
    requires Preflight(req, agents, keys, faults).error.ApiKeyNotFound?
    ensures var agent := Single(faults.first, AgentsWithId(agents, Interpolate(req.agentId))).value;
      && agent.active == Some(true)
      && ResolveProvider(agent.model).Success?
      && Preflight(req, agents, keys, faults).error.provider == ProviderName(ResolveProvider(agent.model).value)
      && (faults.second.Some? || |KeysFor(keys, ProviderName(ResolveProvider(agent.model).value))| != 1)
  {
  }

  /** `role === 'user' ? 'user' : 'assistant'`, content unchanged. */
  function FormatTurn(t: Turn): (m: ChatMessage)
    ensures m.content == t.content
    ensures m.role == "user" <==> t.role == "user"
    ensures m.role == "user" || m.role == "assistant"
  {
    ChatMessage(if t.role == "user" then "user" else "assistant", t.content)
  }

  function FormatHistory(history: seq<Turn>): (r: seq<ChatMessage>)
    ensures |r| == |history|
    ensures forall i :: 0 <= i < |history| ==> r[i] == FormatTurn(history[i])
  {
    seq(|history|, i requires 0 <= i < |history| => FormatTurn(history[i]))
  }

  /** OpenAI: the prompt as a system message, the history in order, then the new user message. */
  function OpenAiMessages(prompt: string, history: seq<Turn>, message: string): (r: seq<ChatMessage>)
    ensures |r| == |history| + 2
    ensures r[0] == ChatMessage("system", prompt)
    ensures forall i :: 0 <= i < |history| ==> r[i + 1] == FormatTurn(history[i])
    ensures r[|r| - 1] == ChatMessage("user", message)
  {
    [ChatMessage("system", prompt)] + FormatHistory(history) + [ChatMessage("user", message)]
  }

  /** Anthropic: the history in order, then the new user message; the prompt travels apart. */
  function AnthropicMessages(history: seq<Turn>, message: string): (r: seq<ChatMessage>)
    ensures |r| == |history| + 1
    ensures forall i :: 0 <= i < |history| ==> r[i] == FormatTurn(history[i])
    ensures r[|r| - 1] == ChatMessage("user", message)
    ensures forall i :: 0 <= i < |r| ==> r[i].role != "system"
  {
    FormatHistory(history) + [ChatMessage("user", message)]
  }

  const OpenAiChatUrl := "https://api.openai.com/v1/chat/completions"
  const AnthropicMessagesUrl := "https://api.anthropic.com/v1/messages"
  const AnthropicVersion := "2023-06-01"
  const MaxTokens := 1000
  /** `temperature: 0.7`, in tenths. */
  const TemperatureTenths := 7

  /** The one outbound request: where it goes, its credentials and its JSON body. */
  datatype ProviderRequest =
    | OpenAiCall(endpoint: string, authorization: string, model: string, messages: seq<ChatMessage>,
                 temperatureTenths: nat, maxTokens: nat)
    | AnthropicCall(endpoint: string, apiKey: string, version: string, model: string, system: string,
                    messages: seq<ChatMessage>, maxTokens: nat)

  /** `conversationHistory`, defaulted to `[]` when left out; `null.map` throws. */
  function HistoryOf(history: Field<seq<Turn>>): Result<seq<Turn>, ChatError> {
    match history
    case Absent => Success([])
    case JsonNull => Failure(ScriptError(ReadError(Null, "map")))
    case Given(h) => Success(h)
  }

  /** The request the handler sends for a plan that passed the checks. */
  function BuildRequest(plan: Plan, message: string, history: Field<seq<Turn>>): (r: Result<ProviderRequest, ChatError>)
    ensures r.Success? <==> !history.JsonNull?
    ensures r.Success? && plan.provider == OpenAi ==>
      r.value.OpenAiCall? && r.value.messages == OpenAiMessages(plan.agent.prompt, HistoryOf(history).value, message)
      && r.value.endpoint == TextOr(plan.endpoint, OpenAiChatUrl)
      && r.value.authorization == "Bearer " + plan.apiKey && r.value.model == plan.agent.model
    ensures r.Success? && plan.provider == Anthropic ==>
      r.value.AnthropicCall? && r.value.messages == AnthropicMessages(HistoryOf(history).value, message)
      && r.value.system == plan.agent.prompt
      && r.value.endpoint == TextOr(plan.endpoint, AnthropicMessagesUrl)
      && r.value.apiKey == plan.apiKey && r.value.model == plan.agent.model
  {
    match HistoryOf(history)
    case Failure(e) => Failure(e)
    case Success(h) =>
      match plan.provider
      case OpenAi =>
        Success(OpenAiCall(TextOr(plan.endpoint, OpenAiChatUrl), "Bearer " + plan.apiKey, plan.agent.model,
                           OpenAiMessages(plan.agent.prompt, h, message), TemperatureTenths, MaxTokens))
      case Anthropic =>
        Success(AnthropicCall(TextOr(plan.endpoint, AnthropicMessagesUrl), plan.apiKey, AnthropicVersion,
                              plan.agent.model, plan.agent.prompt, AnthropicMessages(h, message), MaxTokens))
  }

  /** What the provider call gives back: a status and a body, or a thrown `fetch`. */
  datatype FetchOutcome = Responded(status: nat, body: Body<JsVal>) | Unreachable(message: string)

  /** `response.json()`. */
  function JsonOf(body: Body<JsVal>): (r: Result<JsVal, ChatError>)
    ensures body.Parsed? <==> r.Success?
  {
    match body
    case NoBody => Failure(ResponseNotJson(EmptyJsonMessage))
    case NotJson(m) => Failure(ResponseNotJson(m))
    case Parsed(v) => Success(v)
  }

  /** `response.ok`. */
  predicate IsOk(status: nat) {
    200 <= status <= 299
  }

  /** Where the reply text sits: `choices[0].message.content` or `content[0].text`. */
  function ReplyPath(p: Provider): seq<Step> {
    match p
    case OpenAi => [Key("choices"), Index(0), Key("message"), Key("content")]
    case Anthropic => [Key("content"), Index(0), Key("text")]
  }

  /** The reply, or the error, the provider's answer leads to. */
  function ReadReply(p: Provider, outcome: FetchOutcome): (r: Result<JsVal, ChatError>)
    ensures outcome.Responded? && !IsOk(outcome.status) && outcome.body.Parsed? ==>
      r == Failure(ProviderFailed(ProviderName(p), outcome.status))
    ensures r.Success? ==> outcome.Responded? && IsOk(outcome.status) && outcome.body.Parsed?
  {
    match outcome
    case Unreachable(m) => Failure(FetchFailed(m))
    case Responded(status, body) =>
      match JsonOf(body)
      case Failure(e) => Failure(e)
      case Success(data) =>
        if !IsOk(status) then Failure(ProviderFailed(ProviderName(p), status))
        else match Walk(data, ReplyPath(p))
          case Failure(e) => Failure(ScriptError(e))
          case Success(v) => Success(v)
  }

  /** A successful answer shaped the provider's way yields the text at that provider's path. */
  lemma ShapedAnswerYieldsText(p: Provider, status: nat, text: JsVal)
    requires IsOk(status)
    ensures ReadReply(p, Responded(status, Parsed(Nest(ReplyPath(p), text)))) == Success(text)
  {
    WalkNest(ReplyPath(p), text);
  }

  /** An ok OpenAI answer of any shape that has `choices[0].message.content` yields that value;
      other members of the document (`id`, `usage`, `message.role`, further choices) do not matter. */
  lemma OpenAiAnswerYieldsContent(status: nat, m: map<string, JsVal>, xs: seq<JsVal>,
                                  m2: map<string, JsVal>, m3: map<string, JsVal>)
    requires IsOk(status)
    requires "choices" in m && m["choices"] == Arr(xs) && |xs| > 0 && xs[0] == Obj(m2)
    requires "message" in m2 && m2["message"] == Obj(m3) && "content" in m3
    ensures ReadReply(OpenAi, Responded(status, Parsed(Obj(m)))) == Success(m3["content"])
  {
    var path := ReplyPath(OpenAi);
    assert Read(Obj(m), path[0]) == Success(Arr(xs));
    assert Read(Arr(xs), path[1]) == Success(Obj(m2));
    assert Read(Obj(m2), path[2]) == Success(Obj(m3));
    assert Read(Obj(m3), path[3]) == Success(m3["content"]);
    assert path[4..] == [];
    assert Walk(Obj(m3), path[3..]) == Success(m3["content"]);
    assert Walk(Obj(m2), path[2..]) == Success(m3["content"]);
    assert Walk(Arr(xs), path[1..]) == Success(m3["content"]);
  }

  /** An ok Anthropic answer of any shape that has `content[0].text` yields that value;
      other members (`id`, `usage`, the block's `type`, further blocks) do not matter. */
  lemma AnthropicAnswerYieldsText(status: nat, m: map<string, JsVal>, xs: seq<JsVal>, m2: map<string, JsVal>)
    requires IsOk(status)
    requires "content" in m && m["content"] == Arr(xs) && |xs| > 0 && xs[0] == Obj(m2) && "text" in m2
    ensures ReadReply(Anthropic, Responded(status, Parsed(Obj(m)))) == Success(m2["text"])
  {
    var path := ReplyPath(Anthropic);
    assert Read(Obj(m), path[0]) == Success(Arr(xs));
    assert Read(Arr(xs), path[1]) == Success(Obj(m2));
    assert Read(Obj(m2), path[2]) == Success(m2["text"]);
    assert path[3..] == [];
    assert Walk(Obj(m2), path[2..]) == Success(m2["text"]);
    assert Walk(Arr(xs), path[1..]) == Success(m2["text"]);
  }

  /** Worked example of `ReadReply`: `{choices:[{message:{content:"hi"}}]}` reads as "hi" for openai,
      `{content:[{text:"hi"}]}` as "hi" for anthropic. */
  lemma ReplyExamples()
    ensures ReadReply(OpenAi, Responded(200, Parsed(
      Obj(map["choices" := Arr([Obj(map["message" := Obj(map["content" := Str("hi")])])])])))) == Success(Str("hi"))
    ensures ReadReply(Anthropic, Responded(200, Parsed(
      Obj(map["content" := Arr([Obj(map["text" := Str("hi")])])])))) == Success(Str("hi"))
  {
    assert NatToString(0) == "0";
  }

  /** Worked example of `ReadReply`: a 401 with a JSON body fails with the upper-cased provider and the status. */
  lemma UnauthorizedExample(body: JsVal)
    ensures ReadReply(OpenAi, Responded(401, Parsed(body))) == Failure(ProviderFailed("openai", 401))
    ensures ErrorMessage(ProviderFailed("openai", 401)) == "Erro no OPENAI: 401"
  {
    assert NatToString(401) == "401" by {
      assert NatToString(4) == "4";
      assert NatToString(40) == NatToString(4) + ['0'];
      assert NatToString(401) == NatToString(40) + ['1'];
    }
    UpperOpenAi();
  }

  /** Worked example of `ToUpperAscii` on a provider name. */
  lemma UpperOpenAi()
    ensures ToUpperAscii("openai") == "OPENAI"
  {
    var r := ToUpperAscii("openai");
    assert r[0] == 'O' && r[1] == 'P' && r[2] == 'E' && r[3] == 'N' && r[4] == 'A' && r[5] == 'I';
  }

  /** The response the handler writes. */
  datatype ChatBody = Answer(response: JsVal) | Refusal(error: string)
  datatype ChatReply = ChatReply(status: nat, body: ChatBody)

  /** `{success: true, response}` with 200, or `{success: false, error}` with 400. */
  function Render(outcome: Result<JsVal, ChatError>): (r: ChatReply)
    ensures r.status == 200 <==> outcome.Success?
    ensures r.status == 400 <==> outcome.Failure?
    ensures outcome.Success? ==> r.body == Answer(outcome.value)
    ensures outcome.Failure? ==> r.body == Refusal(ErrorMessage(outcome.error))
  {
    match outcome
    case Success(v) => ChatReply(200, Answer(v))
    case Failure(e) => ChatReply(400, Refusal(ErrorMessage(e)))
  }

  function RequestOf(body: Body<ChatRequest>): Result<ChatRequest, ChatError> {
    match body
    case NoBody => Failure(RequestNotJson(EmptyJsonMessage))
    case NotJson(m) => Failure(RequestNotJson(m))
    case Parsed(req) => Success(req)
  }

  /**
   * The handler. `fetch` stands for the provider's HTTP API; `sent` is the
   * request made to it, if any: at most one, and none unless every check passed.
   */
  method HandleChat(body: Body<ChatRequest>, agents: seq<AgentRow>, keys: seq<ApiKeyRow>, faults: Faults,
                    fetch: ProviderRequest -> FetchOutcome)
    returns (reply: ChatReply, sent: Option<ProviderRequest>)
    ensures RequestOf(body).Failure? ==> sent.None? && reply == Render(Failure(RequestOf(body).error))
    ensures RequestOf(body).Success? && Preflight(RequestOf(body).value, agents, keys, faults).Failure? ==>
      sent.None? && reply == Render(Failure(Preflight(RequestOf(body).value, agents, keys, faults).error))
    ensures RequestOf(body).Success? && Preflight(RequestOf(body).value, agents, keys, faults).Success? ==>
      var req := RequestOf(body).value;
      var plan := Preflight(req, agents, keys, faults).value;
      var built := BuildRequest(plan, req.message, req.history);
      && (built.Failure? ==> sent.None? && reply == Render(Failure(built.error)))
      && (built.Success? ==> sent == Some(built.value) && reply == Render(ReadReply(plan.provider, fetch(built.value))))
    ensures sent.Some? ==> reply.status == 200 || reply.status == 400
  {
    sent := None;
    var parsed := RequestOf(body);
    if parsed.Failure? {
      reply := Render(Failure(parsed.error));
      return;
    }
    var req := parsed.value;

    var agentLookup := Single(faults.first, AgentsWithId(agents, Interpolate(req.agentId)));
    if agentLookup.Failure? {
      reply := Render(Failure(AgentNotFound(agentLookup.error.message)));
      return;
    }
    var agent := agentLookup.value;
    if agent.active != Some(true) {
      reply := Render(Failure(AgentInactive));
      return;
    }

    var provider: Provider;
    if StartsWith(agent.model, "gpt") {
      provider := OpenAi;
    } else if StartsWith(agent.model, "claude") {
      provider := Anthropic;
    } else {
      reply := Render(Failure(UnsupportedModel(agent.model)));
      return;
    }

    var keyLookup := Single(faults.second, KeysFor(keys, ProviderName(provider)));
    if keyLookup.Failure? {
      reply := Render(Failure(ApiKeyNotFound(ProviderName(provider))));
      return;
    }
    var plan := Plan(agent, provider, keyLookup.value.apiKey, keyLookup.value.endpoint);

    var request := BuildRequest(plan, req.message, req.history);
    if request.Failure? {
      reply := Render(Failure(request.error));
      return;
    }
    sent := Some(request.value);
    var response := fetch(request.value);
    var aiResponse := ReadReply(provider, response);
    reply := Render(aiResponse);
  }

  /** Worked example of `Preflight` and `BuildRequest`: one openai key, one active gpt agent, "hello" with no history,
      produces the system prompt followed by the user message, sent to the default URL. */
  lemma EndToEndOpenAi(agent: AgentRow, key: ApiKeyRow)
    requires agent == AgentRow("a1", "atendimento", "Atendimento", None, "Be terse.", "gpt-4o-mini", Some(true),
                               "atendimento", None, None)
    requires key == ApiKeyRow("k1", "openai", "sk-test", None, None, None, Some(true), None, None)
    ensures var req := ChatRequest(Given("atendimento"), "hello", Absent);
      var plan := Preflight(req, [agent], [key], Faults(None, None));
      && plan == Success(Plan(agent, OpenAi, "sk-test", None))
      && BuildRequest(plan.value, "hello", Absent) == Success(OpenAiCall(
           OpenAiChatUrl, "Bearer sk-test", "gpt-4o-mini",
           [ChatMessage("system", "Be terse."), ChatMessage("user", "hello")], 7, 1000))
  {
    ExamplePlan(agent, key);
    ExampleRequest(agent);
  }

  /** The checks of the end-to-end example pass with that agent and that key. */
  lemma ExamplePlan(agent: AgentRow, key: ApiKeyRow)
    requires agent == AgentRow("a1", "atendimento", "Atendimento", None, "Be terse.", "gpt-4o-mini", Some(true),
                               "atendimento", None, None)
    requires key == ApiKeyRow("k1", "openai", "sk-test", None, None, None, Some(true), None, None)
    ensures Preflight(ChatRequest(Given("atendimento"), "hello", Absent), [agent], [key], Faults(None, None))
            == Success(Plan(agent, OpenAi, "sk-test", None))
  {
    assert AgentsWithId([agent], "atendimento") == [agent];
    assert "gpt-4o-mini"[..3] == "gpt";
    assert ResolveProvider("gpt-4o-mini") == Success(OpenAi);
    assert KeysFor([key], "openai") == [key];
    assert Single(None, AgentsWithId([agent], "atendimento")) == Success(agent);
    assert Single(None, KeysFor([key], "openai")) == Success(key);
  }

  /** The request of the end-to-end example: system prompt, then the user message, to the default URL. */
  lemma ExampleRequest(agent: AgentRow)
    requires agent == AgentRow("a1", "atendimento", "Atendimento", None, "Be terse.", "gpt-4o-mini", Some(true),
                               "atendimento", None, None)
    ensures BuildRequest(Plan(agent, OpenAi, "sk-test", None), "hello", Absent) == Success(OpenAiCall(
              OpenAiChatUrl, "Bearer sk-test", "gpt-4o-mini",
              [ChatMessage("system", "Be terse."), ChatMessage("user", "hello")], 7, 1000))
  {
    assert "Bearer " + "sk-test" == "Bearer sk-test";
    assert OpenAiMessages("Be terse.", [], "hello") == [ChatMessage("system", "Be terse."), ChatMessage("user", "hello")];
  }
}
