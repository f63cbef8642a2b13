/**
 * The Python LLM client (api/app/lib/llm_client.py): the model registry,
 * provider and client resolution in the constructor, the request
 * `generate_response` sends, its checks on the reply, and the cost it
 * reports.
 */
module LlmClientPy {
  import opened Wrappers

  /** `Models` */
  datatype Model =
    | Gemini25Pro | Gemini25Flash | Gemini25FlashLitePreview | Gemini20Flash
    | OrLlama4Maverick | OrLlama33_70bInstruct | OrGpt4oMini | OrGpt41Mini

  /** The string value of each `Models` member. */
  function Value(m: Model): string {
    match m
    case Gemini25Pro => "gemini-2.5-pro"
    case Gemini25Flash => "gemini-2.5-flash"
    case Gemini25FlashLitePreview => "gemini-2.5-flash-lite-preview-06-17"
    case Gemini20Flash => "gemini-2.0-flash"
    case OrLlama4Maverick => "meta-llama/llama-4-maverick"
    case OrLlama33_70bInstruct => "meta-llama/llama-3.3-70b-instruct"
    case OrGpt4oMini => "openai/gpt-4o-mini"
    case OrGpt41Mini => "openai/gpt-4.1-mini"
  }

  /** `ModelInfo`; the rates are per million tokens. */
  datatype ModelInfo = ModelInfo(name: string, provider: string, inputRate: real, outputRate: real)

  /** `MODEL_REGISTRY`, keyed by model value. */
  const Registry: map<string, ModelInfo> := map[
    "gemini-2.5-pro" := ModelInfo("Gemini 2.5 Pro", "Google", 20.0, 80.0),
    "gemini-2.5-flash" := ModelInfo("Gemini 2.5 Flash", "Google", 10.0, 40.0),
    "gemini-2.5-flash-lite-preview-06-17" := ModelInfo("Gemini 2.5 Flash Lite Preview", "Google", 5.0, 20.0),
    "gemini-2.0-flash" := ModelInfo("Gemini 2.0 Flash", "Google", 5.0, 20.0),
    "meta-llama/llama-4-maverick" := ModelInfo("Llama 4 Maverick", "OpenRouter", 15.0, 60.0),
    "meta-llama/llama-3.3-70b-instruct" := ModelInfo("Llama 3.3 70B Instruct", "OpenRouter", 5.0, 25.0),
    "openai/gpt-4o-mini" := ModelInfo("GPT-4o Mini", "OpenRouter", 15.0, 60.0),
    "openai/gpt-4.1-mini" := ModelInfo("GPT-4.1 Mini", "OpenRouter", 40.0, 160.0)
  ]

  /** The two module-level OpenAI-compatible clients. */
  datatype Client = GeminiClient | OpenRouterClient

  /** `_get_provider`: the registry provider, or `ValueError`. */
  function GetProvider(model: string): (r: Result<string, Error>)
    ensures r.Success? <==> model in Registry
    ensures r.Success? ==> r.value == Registry[model].provider
    ensures r.Failure? ==> r.error == ValueError("Unknown model: " + model)
  {
    if model in Registry then Success(Registry[model].provider)
    else Failure(ValueError("Unknown model: " + model))
  }

  /** `_get_client`: the client for a provider, or `ValueError`. */
  function GetClient(provider: string): (r: Result<Client, Error>)
    ensures r == Success(GeminiClient) <==> provider == "Google"
    ensures r == Success(OpenRouterClient) <==> provider == "OpenRouter"
    ensures r.Failure? ==> r.error == ValueError("Unknown provider: " + provider)
  {
    if provider == "Google" then Success(GeminiClient)
    else if provider == "OpenRouter" then Success(OpenRouterClient)
    else Failure(ValueError("Unknown provider: " + provider))
  }

  /** Every `Models` member has a registry entry whose provider has a client,
    * and distinct members have distinct values. */
  lemma RegistryCoversModels(m: Model)
    ensures Value(m) in Registry
    ensures GetProvider(Value(m)).Success?
    ensures GetClient(Registry[Value(m)].provider).Success?
    ensures forall n: Model :: Value(n) == Value(m) ==> n == m
  {
  }

  /** The registry has an entry for exactly the eight model values. */
  lemma RegistryKeys()
    ensures Registry.Keys == set m: Model :: Value(m)
    ensures |Registry| == 8
  {
    var values := set m: Model :: Value(m);
    assert Registry.Keys == KeyList();
    assert Value(Gemini25Pro) in values && Value(Gemini25Flash) in values;
    assert Value(Gemini25FlashLitePreview) in values && Value(Gemini20Flash) in values;
    assert Value(OrLlama4Maverick) in values && Value(OrLlama33_70bInstruct) in values;
    assert Value(OrGpt4oMini) in values && Value(OrGpt41Mini) in values;
    assert KeyList() <= values;
    assert values <= KeyList() by {
      forall m: Model ensures Value(m) in KeyList() {}
    }
    KeyListSize();
  }

  /** The eight model values, written out. */
  function KeyList(): set<string> {
    {"gemini-2.5-pro", "gemini-2.5-flash", "gemini-2.5-flash-lite-preview-06-17", "gemini-2.0-flash",
     "meta-llama/llama-4-maverick", "meta-llama/llama-3.3-70b-instruct", "openai/gpt-4o-mini", "openai/gpt-4.1-mini"}
  }

  lemma KeyListSize()
    ensures |KeyList()| == 8
  {
  }

  datatype Message = Message(role: string, content: string)

  /** The arguments of `chat.completions.create`. */
  datatype Request = Request(model: string, messages: seq<Message>, temperature: real)

  /** Token usage. The source applies `len()` to the two fields, so they are
    * taken here as the counts that `len()` returns. */
  datatype Usage = Usage(inputTokens: nat, outputTokens: nat)

  /** The part of a completion the client reads: the message content of each
    * choice, and the usage. */
  datatype Completion = Completion(choices: seq<Option<string>>, usage: Option<Usage>)

  /** The transport: the completion for a request, or the text of the exception raised. */
  type Transport = Request -> Result<Completion, string>

  /** `LLMClientResponse`; `responseTime` is the clock difference, given by the caller. */
  datatype LLMClientResponse = LLMClientResponse(content: string, responseTime: real, provider: string, cost: real)

  /** The cost formula of `generate_response`. */
  function Cost(info: ModelInfo, usage: Usage): real {
    (usage.inputTokens as real / 1000000.0) * info.inputRate
      + (usage.outputTokens as real / 1000000.0) * info.outputRate
  }

  /** Every registered model has non-negative rates, so every cost is non-negative. */
  lemma CostNonNegative(model: string, usage: Usage)
    requires model in Registry
    ensures Cost(Registry[model], usage) >= 0.0
  {
    var info := Registry[model];
    assert info.inputRate >= 0.0 && info.outputRate >= 0.0;
  }

  /** One million input and half a million output tokens on Gemini 2.5 Flash cost 10 + 20. */
  lemma FlashCostExample()
    ensures Cost(Registry[Value(Gemini25Flash)], Usage(1000000, 500000)) == 30.0
  {
  }

  class LLMClient {
    const model: string
    const provider: string
    const client: Client

    /** The fields agree with the registry, as the constructor leaves them. */
    ghost predicate Valid()
    {
      model in Registry && GetProvider(model) == Success(provider) && GetClient(provider) == Success(client)
    }

    constructor Init(model: string, provider: string, client: Client)
      ensures this.model == model && this.provider == provider && this.client == client
    {
      this.model := model;
      this.provider := provider;
      this.client := client;
    }

    /** `LLMClient(model)`: resolve the provider, then the client; either may
      * raise, before any request is made. */
    static method New(model: string) returns (r: Result<LLMClient, Error>)
      ensures r.Success? <==> model in Registry
      ensures r.Failure? ==> r.error == ValueError("Unknown model: " + model)
      ensures r.Success? ==> fresh(r.value) && r.value.Valid() && r.value.model == model
    {
      var provider := GetProvider(model);
      if provider.Failure? {
        return Failure(provider.error);
      }
      var client: Client;
      match GetClient(provider.value) {
        case Failure(e) =>
          return Failure(e);
        case Success(cl) =>
          client := cl;
      }
      var c := new LLMClient.Init(model, provider.value, client);
      return Success(c);
    }

    /** The request: the system message, then the user message, at `temp`
      * (0.7 when the caller gives none). */
    function BuildRequest(systemPrompt: string, userPrompt: string, temp: real := 0.7): (req: Request)
      ensures req.model == model && req.temperature == temp
      ensures req.messages == [Message("system", systemPrompt), Message("user", userPrompt)]
    {
      Request(model, [Message("system", systemPrompt), Message("user", userPrompt)], temp)
    }

    /** `generate_response`, given what the transport returns and the elapsed time. */
    function GenerateResponse(systemPrompt: string, userPrompt: string, temp: real := 0.7,
                              send: Transport, elapsed: real): (r: Result<LLMClientResponse, Error>)
      requires Valid()
    {
      match send(BuildRequest(systemPrompt, userPrompt, temp))
      case Failure(e) => Failure(RuntimeError("Failed to generate response: " + e))
      case Success(completion) =>
        if completion.choices == [] then
          Failure(IndexError)
        else if completion.choices[0].None? || completion.choices[0].value == "" then
          Failure(RuntimeError("Failed to generate response"))
        else if completion.usage.None? then
          Failure(RuntimeError("Response usage information is missing"))
        else
          Success(LLMClientResponse(completion.choices[0].value, elapsed, provider,
                                    Cost(Registry[model], completion.usage.value)))
    }

    /** The checks on the reply, in order: a transport error, then no choice at
      * all (an `IndexError` outside the `try`), then empty content, then missing
      * usage; a success carries the registry provider, the first choice's
      * non-empty content and the non-negative cost of its usage. */
    lemma GenerateResponseOutcomes(systemPrompt: string, userPrompt: string, temp: real, send: Transport, elapsed: real)
      requires Valid()
      ensures var reply := send(BuildRequest(systemPrompt, userPrompt, temp));
        var r := GenerateResponse(systemPrompt, userPrompt, temp, send, elapsed);
        && (reply.Failure? ==> r == Failure(RuntimeError("Failed to generate response: " + reply.error)))
        && (reply.Success? && reply.value.choices == [] ==> r == Failure(IndexError))
        && (reply.Success? && reply.value.choices != [] && (reply.value.choices[0] == None || reply.value.choices[0] == Some("")) ==>
              r == Failure(RuntimeError("Failed to generate response")))
        && (reply.Success? && reply.value.choices != [] && reply.value.choices[0].Some? && reply.value.choices[0].value != ""
            && reply.value.usage.None? ==>
              r == Failure(RuntimeError("Response usage information is missing")))
        && (r.Success? <==> reply.Success? && reply.value.choices != [] && reply.value.choices[0].Some?
                            && reply.value.choices[0].value != "" && reply.value.usage.Some?)
        && (r.Success? ==>
              && r.value.provider == Registry[model].provider
              && r.value.content == reply.value.choices[0].value
              && r.value.content != ""
              && r.value.cost == Cost(Registry[model], reply.value.usage.value)
              && r.value.cost >= 0.0)
      ensures BuildRequest(systemPrompt, userPrompt).temperature == 0.7
      ensures GenerateResponse(systemPrompt, userPrompt, send := send, elapsed := elapsed)
              == GenerateResponse(systemPrompt, userPrompt, 0.7, send, elapsed)
    {
      if send(BuildRequest(systemPrompt, userPrompt, temp)).Success? {
        var c := send(BuildRequest(systemPrompt, userPrompt, temp)).value;
        if c.usage.Some? {
          CostNonNegative(model, c.usage.value);
        }
      }
    }
  }
}
