/**
 * The TypeScript LLM client (choreo/src/lib/llm-client.ts): the model
 * registry, provider dispatch in the constructor, the options passed to text
 * and structured generation, and the cost it logs.
 */
module LlmClientTs {
  import opened Wrappers

  datatype Provider = Google | OpenAI | OpenRouter

  function ProviderName(p: Provider): string {
    match p
    case Google => "Google"
    case OpenAI => "OpenAI"
    case OpenRouter => "OpenRouter"
  }

  /** `ModelDetails`; `reasoning` is `true` where the entry sets it and absent otherwise.
    * The rates are hundredths of a USD per million tokens. */
  datatype ModelDetails = ModelDetails(name: string, provider: Provider, inputRate: real, outputRate: real, reasoning: bool)

  /** `MODEL_REGISTRY` */
  const Registry: map<string, ModelDetails> := map[
    "gemini-2.5-flash-lite-preview-06-17" := ModelDetails("Gemini 2.5 Flash Lite Preview", Google, 5.0, 20.0, false),
    "gpt-5-mini-2025-08-07" := ModelDetails("GPT-5 Mini", OpenAI, 25.0, 200.0, true),
    "gpt-5-nano-2025-08-07" := ModelDetails("GPT-5 Nano", OpenAI, 5.0, 40.0, true),
    "gpt-4.1-mini-2025-04-14" := ModelDetails("GPT-4.1 Mini", OpenAI, 15.0, 60.0, false),
    "gpt-4.1-nano-2025-04-14" := ModelDetails("GPT-4.1 Nano", OpenAI, 10.0, 40.0, false),
    "openai/gpt-4.1-mini" := ModelDetails("GPT-4.1 Mini", OpenRouter, 40.0, 160.0, false),
    "openai/gpt-4.1-nano" := ModelDetails("GPT-4.1 Nano", OpenRouter, 10.0, 40.0, false)
  ]

  /** Exactly the two GPT-5 entries are reasoning models. */
  lemma ReasoningModels(model: string)
    requires model in Registry
    ensures Registry[model].reasoning <==> model == "gpt-5-mini-2025-08-07" || model == "gpt-5-nano-2025-08-07"
  {
  }

  /** `_getModelDetails`: the entry, or an `Error`. */
  function GetModelDetails(model: string): (r: Result<ModelDetails, Error>)
    ensures r.Success? <==> model in Registry
    ensures r.Success? ==> r.value == Registry[model]
    ensures r.Failure? ==> r.error == JsError("Model not found: " + model)
  {
    if model in Registry then Success(Registry[model]) else Failure(JsError("Model not found: " + model))
  }

  /** A provider's language model for a model id: `google(model)`, `openai(model)`, `openrouter(model)`. */
  datatype ModelClient = ModelClient(provider: Provider, model: string)

  /** `_getModelClient`: dispatch on the entry's provider. The `Unsupported
    * provider` branch of the source cannot be reached, since every provider
    * is one of the three. */
  function GetModelClient(model: string): (r: Result<ModelClient, Error>)
    ensures r.Success? <==> model in Registry
    ensures r.Success? ==> r.value == ModelClient(Registry[model].provider, model)
    ensures r.Failure? ==> r.error == JsError("Model not found: " + model)
  {
    match GetModelDetails(model)
    case Failure(e) => Failure(e)
    case Success(details) =>
      match details.provider
      case Google => Success(ModelClient(Google, model))
      case OpenAI => Success(ModelClient(OpenAI, model))
      case OpenRouter => Success(ModelClient(OpenRouter, model))
  }

  datatype ReasoningEffort = Low | Medium | High

  const DefaultTemperature: real := 0.7
  const DefaultEffort := Low

  /** A zod schema, taken as given. */
  datatype Schema = Schema(name: string)

  /** The options passed to `generateText` / `generateObject`. */
  datatype Options = Options(client: ModelClient, system: string, prompt: string,
                             temperature: Option<real>, reasoningEffort: Option<ReasoningEffort>,
                             schema: Option<Schema>)

  /** The options of `generateTextResponse`. */
  function TextOptions(details: ModelDetails, client: ModelClient, system: string, prompt: string,
                       temp: real, effort: ReasoningEffort): (o: Options)
    ensures o.client == client && o.system == system && o.prompt == prompt && o.schema.None?
    ensures details.reasoning ==> o.reasoningEffort == Some(effort) && o.temperature.None?
    ensures !details.reasoning ==> o.temperature == Some(temp) && o.reasoningEffort.None?
  {
    if details.reasoning then Options(client, system, prompt, None, Some(effort), None)
    else Options(client, system, prompt, Some(temp), None, None)
  }

  /** The options of `generateStructuredResponse`. */
  function StructuredOptions(details: ModelDetails, client: ModelClient, system: string, prompt: string,
                             temp: real, effort: ReasoningEffort, schema: Schema): (o: Options)
    ensures o.schema == Some(schema)
    ensures details.reasoning ==> o.reasoningEffort == Some(effort) && o.temperature.None?
    ensures !details.reasoning ==> o.temperature == Some(temp) && o.reasoningEffort.None?
  {
    if details.reasoning then Options(client, system, prompt, None, Some(effort), Some(schema))
    else Options(client, system, prompt, Some(temp), None, Some(schema))
  }

  /** The structured options are the text options with the schema added, in both branches. */
  lemma StructuredAddsSchema(details: ModelDetails, client: ModelClient, system: string, prompt: string,
                             temp: real, effort: ReasoningEffort, schema: Schema)
    ensures StructuredOptions(details, client, system, prompt, temp, effort, schema)
         == TextOptions(details, client, system, prompt, temp, effort).(schema := Some(schema))
  {
  }

  /** `usage` as returned; either count may be absent. */
  datatype Usage = Usage(inputTokens: Option<nat>, outputTokens: Option<nat>)

  /** The cost expression; `None` where the source computes `NaN` from an absent count. */
  function Cost(details: ModelDetails, usage: Usage): (c: Option<real>)
    ensures c.Some? <==> usage.inputTokens.Some? && usage.outputTokens.Some?
    ensures c.Some? && details.inputRate >= 0.0 && details.outputRate >= 0.0 ==> c.value >= 0.0
  {
    if usage.inputTokens.None? || usage.outputTokens.None? then None
    else Some((usage.inputTokens.value as real / 1000000.0) * details.inputRate
              + (usage.outputTokens.value as real / 1000000.0) * details.outputRate)
  }

  /** The USD amount the log line reports: the cost divided by 100. */
  function LoggedUsd(cost: Option<real>): Option<real> {
    match cost
    case Some(c) => Some(c / 100.0)
    case None => None
  }

  lemma RegistryRatesNonNegative(model: string, usage: Usage)
    requires model in Registry
    ensures Cost(Registry[model], usage).Some? ==> Cost(Registry[model], usage).value >= 0.0
  {
    assert Registry[model].inputRate >= 0.0 && Registry[model].outputRate >= 0.0;
  }

  /** A million input and a million output tokens on GPT-5 Mini: 225 cost units, logged as 2.25 USD. */
  lemma Gpt5MiniCostExample()
    ensures Cost(Registry["gpt-5-mini-2025-08-07"], Usage(Some(1000000), Some(1000000))) == Some(225.0)
    ensures LoggedUsd(Some(225.0)) == Some(2.25)
  {
  }

  /** What a generation call returns: text or an object, and usage; or the rejection. */
  datatype Generated<T> = Generated(value: T, usage: Usage)

  /** The log entry written when a log key is set. */
  datatype LogEntry = LogEntry(key: string, name: string, provider: Provider, usd: Option<real>)

  class LLMClient {
    const model: string
    const systemPrompt: string
    const logKey: Option<string>
    const modelClient: ModelClient

    ghost predicate Valid() {
      GetModelClient(model) == Success(modelClient)
    }

    constructor Init(model: string, systemPrompt: string, logKey: Option<string>, modelClient: ModelClient)
      ensures this.model == model && this.systemPrompt == systemPrompt && this.logKey == logKey
      ensures this.modelClient == modelClient
    {
      this.model := model;
      this.systemPrompt := systemPrompt;
      this.logKey := logKey;
      this.modelClient := modelClient;
    }

    /** `new LLMClient({model, system_prompt, log_key})`: an unregistered model
      * throws here, before any generation. */
    static method New(model: string, systemPrompt: string, logKey: Option<string>) returns (r: Result<LLMClient, Error>)
      ensures r.Success? <==> model in Registry
      ensures r.Failure? ==> r.error == JsError("Model not found: " + model)
      ensures r.Success? ==> fresh(r.value) && r.value.Valid() && r.value.model == model
                             && r.value.systemPrompt == systemPrompt && r.value.logKey == logKey
    {
      var client: ModelClient;
      match GetModelClient(model) {
        case Failure(e) =>
          return Failure(e);
        case Success(c) =>
          client := c;
      }
      var created := new LLMClient.Init(model, systemPrompt, logKey, client);
      return Success(created);
    }

    /** The log entry, written only when the log key is set and non-empty. */
    function Log(details: ModelDetails, usage: Usage): (e: Option<LogEntry>)
      ensures e.Some? <==> logKey.Some? && logKey.value != ""
      ensures e.Some? ==> e.value.usd == LoggedUsd(Cost(details, usage))
    {
      if logKey.Some? && logKey.value != "" then
        Some(LogEntry(logKey.value, details.name, details.provider, LoggedUsd(Cost(details, usage))))
      else None
    }

    /** `generateTextResponse`: the options sent, then the text returned (the
      * call's rejection propagates), with the log entry. */
    function GenerateTextResponse(prompt: string, temp: real, effort: ReasoningEffort,
                                  generate: Options -> Result<Generated<string>, Error>): (r: Result<(string, Option<LogEntry>), Error>)
      requires Valid()
      ensures var d := Registry[model];
        var o := TextOptions(d, modelClient, systemPrompt, prompt, temp, effort);
        && (generate(o).Failure? ==> r == Failure(generate(o).error))
        && (generate(o).Success? ==> r.Success? && r.value.0 == generate(o).value.value
                                     && r.value.1 == Log(d, generate(o).value.usage))
    {
      var d := Registry[model];
      var o := TextOptions(d, modelClient, systemPrompt, prompt, temp, effort);
      match generate(o)
      case Failure(e) => Failure(e)
      case Success(g) => Success((g.value, Log(d, g.usage)))
    }

    /** `generateStructuredResponse`: as the text variant, with the schema. */
    function GenerateStructuredResponse<T>(schema: Schema, prompt: string, temp: real, effort: ReasoningEffort,
                                           generate: Options -> Result<Generated<T>, Error>): (r: Result<(T, Option<LogEntry>), Error>)
      requires Valid()
      ensures var d := Registry[model];
        var o := StructuredOptions(d, modelClient, systemPrompt, prompt, temp, effort, schema);
        && (generate(o).Failure? ==> r == Failure(generate(o).error))
        && (generate(o).Success? ==> r.Success? && r.value.0 == generate(o).value.value
                                     && r.value.1 == Log(d, generate(o).value.usage))
    {
      var d := Registry[model];
      var o := StructuredOptions(d, modelClient, systemPrompt, prompt, temp, effort, schema);
      match generate(o)
      case Failure(e) => Failure(e)
      case Success(g) => Success((g.value, Log(d, g.usage)))
    }

    /** A reasoning model is sent a reasoning effort and no temperature; any
      * other model the temperature and no reasoning options. */
    lemma OptionsSplit(prompt: string, temp: real, effort: ReasoningEffort)
      requires Valid()
      ensures var o := TextOptions(Registry[model], modelClient, systemPrompt, prompt, temp, effort);
        (o.temperature.None? <==> model == "gpt-5-mini-2025-08-07" || model == "gpt-5-nano-2025-08-07")
        && (o.reasoningEffort.Some? <==> o.temperature.None?)
        && o.system == systemPrompt && o.prompt == prompt && o.client.model == model
    {
      ReasoningModels(model);
    }
  }
}
