/** Resolution of a model name to an LLM client: the namespaced `vendor/model` path, the Google
    Vertex override, the two AI SDK provider tables and the static model table. */
module LlmProvider {
  import opened Values
  import opened Text
  import GoogleVertex

  /** The provider families a model name can be classified into. */
  datatype ModelProvider = OpenAI | Anthropic | Cerebras | Groq | Google | AiSdk

  /** Keys of the AI SDK provider table used without an API key, in declaration order. The
      provider constructors themselves are opaque. */
  const AISDKProviders: seq<string> :=
    ["openai", "anthropic", "google", "xai", "azure", "groq", "cerebras", "togetherai",
     "mistral", "deepseek", "perplexity", "ollama"]

  /** Keys of the AI SDK provider-factory table used with an API key; it has no `ollama`. */
  const AISDKProvidersWithAPIKey: seq<string> :=
    ["openai", "anthropic", "google", "xai", "azure", "groq", "cerebras", "togetherai",
     "mistral", "deepseek", "perplexity"]

  /** The static table from bare model names to their vendor family. */
  const ModelToProvider: map<string, ModelProvider> := map[
    "gpt-4.1" := OpenAI,
    "gpt-4.1-mini" := OpenAI,
    "gpt-4.1-nano" := OpenAI,
    "o4-mini" := OpenAI,
    "o3" := OpenAI,
    "o3-mini" := OpenAI,
    "o1" := OpenAI,
    "o1-mini" := OpenAI,
    "gpt-4o" := OpenAI,
    "gpt-4o-mini" := OpenAI,
    "gpt-4o-2024-08-06" := OpenAI,
    "gpt-4.5-preview" := OpenAI,
    "o1-preview" := OpenAI,
    "claude-3-5-sonnet-latest" := Anthropic,
    "claude-3-5-sonnet-20240620" := Anthropic,
    "claude-3-5-sonnet-20241022" := Anthropic,
    "claude-3-7-sonnet-20250219" := Anthropic,
    "claude-3-7-sonnet-latest" := Anthropic,
    "cerebras-llama-3.3-70b" := Cerebras,
    "cerebras-llama-3.1-8b" := Cerebras,
    "groq-llama-3.3-70b-versatile" := Groq,
    "groq-llama-3.3-70b-specdec" := Groq,
    "moonshotai/kimi-k2-instruct" := Groq,
    "gemini-1.5-flash" := Google,
    "gemini-1.5-pro" := Google,
    "gemini-1.5-flash-8b" := Google,
    "gemini-2.0-flash-lite" := Google,
    "gemini-2.0-flash" := Google,
    "gemini-2.5-flash-preview-04-17" := Google,
    "gemini-2.5-flash" := Google,
    "gemini-2.5-pro-preview-03-25" := Google,
    "gemini-2.5-pro" := Google
  ]

  /** The distinct values of the static table in first-occurrence order, as listed by
      `UnsupportedModelProviderError`. */
  const TableProviders: seq<ModelProvider> := [OpenAI, Anthropic, Cerebras, Groq, Google]

  type ClientOptions = GoogleVertex.Options

  /** How an AI SDK provider instance was obtained: the shared default instance, or a fresh one
      made by the factory from an API key and, when truthy, a base URL. */
  datatype ProviderConfig = DefaultInstance | Keyed(apiKey: JsValue, baseURL: Option<JsValue>)

  /** An opaque AI SDK language-model handle: which provider made it, for which model. */
  datatype LanguageModel = LanguageModel(provider: string, modelName: string, config: ProviderConfig)

  /** The client kinds `getClient` builds. `DirectClient` stands for the five vendor classes
      (OpenAIClient, AnthropicClient, CerebrasClient, GroqClient, GoogleClient), one per family. */
  datatype LlmClient =
    | VertexClient(modelName: string, options: ClientOptions)
    | AISdkClient(model: LanguageModel)
    | DirectClient(family: ModelProvider, modelName: string, clientOptions: Option<ClientOptions>)

  datatype ProviderError =
    | VertexThroughAISdk
    | UnsupportedAISDKModelProvider(provider: string, supported: seq<string>)
    | UnsupportedModel(knownModels: set<string>)
    | UnsupportedModelProvider(knownProviders: seq<ModelProvider>)
    | VertexConfig(cause: GoogleVertex.ConfigError)

  /** `isVertexAIRequest`: the options exist and carry a truthy `vertexai`. */
  predicate IsVertexAIRequest(options: Option<ClientOptions>) {
    options.Some? && "vertexai" in options.value && Truthy(options.value["vertexai"])
  }

  /** `clientOptions?.apiKey`. */
  function ApiKeyOf(options: Option<ClientOptions>): JsValue {
    GoogleVertex.Field(options, "apiKey")
  }

  /** The static table has no `aisdk` entry: every value is one of the five vendor families. */
  lemma {:induction false} TableHasOnlyVendorFamilies()
    ensures forall name :: name in ModelToProvider ==> ModelToProvider[name] in TableProviders
    ensures forall name :: name in ModelToProvider ==> ModelToProvider[name] != AiSdk
    ensures forall p :: p in TableProviders ==> p in ModelToProvider.Values
  {
    assert ModelToProvider["gpt-4.1"] == OpenAI;
    assert ModelToProvider["claude-3-5-sonnet-latest"] == Anthropic;
    assert ModelToProvider["cerebras-llama-3.3-70b"] == Cerebras;
    assert ModelToProvider["groq-llama-3.3-70b-versatile"] == Groq;
    assert ModelToProvider["gemini-1.5-pro"] == Google;
  }

  /** `getAISDKLanguageModel`. `baseURL` is a free identifier in the source; it is taken as an
      opaque input here. */
  function GetAISDKLanguageModel(subProvider: string, subModelName: string, apiKey: JsValue,
                                 options: Option<ClientOptions>, baseURL: JsValue): (r: Result<LanguageModel, ProviderError>)
    ensures subProvider == "google" && IsVertexAIRequest(options) ==> r == Failure(VertexThroughAISdk)
    ensures !(subProvider == "google" && IsVertexAIRequest(options)) && Truthy(apiKey) ==>
      (r.Success? <==> subProvider in AISDKProvidersWithAPIKey) &&
      (r.Failure? ==> r.error == UnsupportedAISDKModelProvider(subProvider, AISDKProvidersWithAPIKey))
    ensures !(subProvider == "google" && IsVertexAIRequest(options)) && !Truthy(apiKey) ==>
      (r.Success? <==> subProvider in AISDKProviders) &&
      (r.Failure? ==> r.error == UnsupportedAISDKModelProvider(subProvider, AISDKProviders))
    ensures r.Success? ==> r.value.provider == subProvider && r.value.modelName == subModelName
    ensures r.Success? ==> (r.value.config.Keyed? <==> Truthy(apiKey))
  {
    if subProvider == "google" && IsVertexAIRequest(options) then
      Failure(VertexThroughAISdk)
    else if Truthy(apiKey) then
      if subProvider !in AISDKProvidersWithAPIKey then
        Failure(UnsupportedAISDKModelProvider(subProvider, AISDKProvidersWithAPIKey))
      else
        var base := if Truthy(baseURL) then Some(baseURL) else None;
        Success(LanguageModel(subProvider, subModelName, Keyed(apiKey, base)))
    else if subProvider !in AISDKProviders then
      Failure(UnsupportedAISDKModelProvider(subProvider, AISDKProviders))
    else
      Success(LanguageModel(subProvider, subModelName, DefaultInstance))
  }

  /** What a JavaScript property read on a table object yields. */
  datatype PropertyRead = Own(provider: ModelProvider) | Inherited(key: string) | Missing

  /** The members every plain object inherits from `Object.prototype`; reading any of them
      yields a truthy function (or, for `__proto__`, the prototype object itself). */
  const ObjectPrototypeKeys: set<string> := {
    "constructor", "__defineGetter__", "__defineSetter__", "hasOwnProperty",
    "__lookupGetter__", "__lookupSetter__", "isPrototypeOf", "propertyIsEnumerable",
    "toString", "valueOf", "__proto__", "toLocaleString"
  }

  /** `modelToProviderMap[name]` as JavaScript evaluates it: own entries first, then the
      inherited members of `Object.prototype`. */
  function StaticLookupAsWritten(name: string): (r: PropertyRead)
    ensures r.Own? <==> name in ModelToProvider
    ensures r.Inherited? <==> name !in ModelToProvider && name in ObjectPrototypeKeys
    ensures r.Own? ==> r.provider == ModelToProvider[name]
  {
    if name in ModelToProvider then Own(ModelToProvider[name])
    else if name in ObjectPrototypeKeys then Inherited(name)
    else Missing
  }

  /** The intended lookup: own entries of the table only. */
  function StaticLookup(name: string): (r: PropertyRead)
    ensures !r.Inherited?
    ensures r.Own? <==> name in ModelToProvider
    ensures r.Own? ==> r.provider == ModelToProvider[name]
  {
    if name in ModelToProvider then Own(ModelToProvider[name]) else Missing
  }

  /** The tail of `getClient` for a bare name: the missing-name error, then the switch over the
      provider, whose `default` also catches a value that is no provider at all. */
  function DirectClientFor(found: PropertyRead, modelName: string, options: Option<ClientOptions>): (r: Result<LlmClient, ProviderError>)
    ensures found.Missing? ==> r == Failure(UnsupportedModel(ModelToProvider.Keys))
    ensures found.Inherited? ==> r == Failure(UnsupportedModelProvider(TableProviders))
    ensures found.Own? && found.provider != AiSdk ==> r == Success(DirectClient(found.provider, modelName, options))
    ensures found.Own? && found.provider == AiSdk ==> r == Failure(UnsupportedModelProvider(TableProviders))
  {
    match found
    case Missing => Failure(UnsupportedModel(ModelToProvider.Keys))
    case Inherited(_) => Failure(UnsupportedModelProvider(TableProviders))
    case Own(p) =>
      if p == AiSdk then Failure(UnsupportedModelProvider(TableProviders))
      else Success(DirectClient(p, modelName, options))
  }

  /** `getClient`. */
  function GetClient(modelName: string, options: Option<ClientOptions>, baseURL: JsValue): (r: Result<LlmClient, ProviderError>)
    ensures '/' in modelName ==> !(r.Success? && r.value.DirectClient?)
    ensures '/' in modelName ==> !(r.Failure? && (r.error.UnsupportedModel? || r.error.UnsupportedModelProvider?))
    ensures '/' !in modelName ==> (r.Success? <==> modelName in ModelToProvider)
    ensures '/' !in modelName && r.Success? ==>
      r.value == DirectClient(ModelToProvider[modelName], modelName, options) && r.value.family != AiSdk
    ensures '/' !in modelName && r.Failure? ==> r.error == UnsupportedModel(ModelToProvider.Keys)
  {
    if '/' in modelName then
      var (subProvider, subModelName) := SplitAtFirst(modelName, '/');
      if subProvider == "google" && IsVertexAIRequest(options) then
        match GoogleVertex.NewVertexOptions(options)
        case Success(forwarded) => Success(VertexClient(modelName, forwarded))
        case Failure(e) => Failure(VertexConfig(e))
      else
        match GetAISDKLanguageModel(subProvider, subModelName, ApiKeyOf(options), options, baseURL)
        case Success(model) => Success(AISdkClient(model))
        case Failure(e) => Failure(e)
    else
      TableHasOnlyVendorFamilies();
      DirectClientFor(StaticLookup(modelName), modelName, options)
  }

  /** On the namespaced path the sub-provider is the text before the first `/` and the sub-model
      everything after it; an AI SDK client is built from exactly those two parts. */
  lemma NamespacedNameSplitsAtFirstSlash(modelName: string, options: Option<ClientOptions>, baseURL: JsValue)
    requires '/' in modelName
    ensures var r := GetClient(modelName, options, baseURL);
      r.Success? && r.value.AISdkClient? ==>
        modelName == r.value.model.provider + "/" + r.value.model.modelName && '/' !in r.value.model.provider
    ensures var r := GetClient(modelName, options, baseURL);
      r.Success? && r.value.VertexClient? ==> r.value.modelName == modelName && StartsWith(modelName, "google/")
  {
    var (sub, model) := SplitAtFirst(modelName, '/');
    assert modelName == sub + "/" + model;
    var r := GetClient(modelName, options, baseURL);
    if r.Success? && r.value.VertexClient? {
      assert sub == "google";
      assert modelName[..7] == sub + "/";
    }
  }

  /** Every other namespaced name goes to the AI SDK: `getClient` succeeds exactly when
      `getAISDKLanguageModel` does for the parts around the first `/`, wraps the model it
      builds, and otherwise fails with its error. So the name is accepted exactly when its
      sub-provider is in the table the API key selects. */
  lemma NamespacedNameUsesAISdk(modelName: string, options: Option<ClientOptions>, baseURL: JsValue)
    requires '/' in modelName
    requires !(SplitAtFirst(modelName, '/').0 == "google" && IsVertexAIRequest(options))
    ensures var (sub, m) := SplitAtFirst(modelName, '/');
      var model := GetAISDKLanguageModel(sub, m, ApiKeyOf(options), options, baseURL);
      var r := GetClient(modelName, options, baseURL);
      (r.Success? <==> model.Success?) &&
      (model.Success? ==> r.value == AISdkClient(model.value)) &&
      (model.Failure? ==> r.error == model.error)
    ensures var sub := SplitAtFirst(modelName, '/').0;
      GetClient(modelName, options, baseURL).Success? <==>
        (if Truthy(ApiKeyOf(options)) then sub in AISDKProvidersWithAPIKey else sub in AISDKProviders)
  {
  }

  /** `google/...` with a truthy `vertexai` always goes to the Vertex client (or its configuration
      error) and never reaches the AI SDK, which would itself refuse that combination. */
  lemma VertexOverridesAISdk(subModelName: string, options: Option<ClientOptions>, baseURL: JsValue)
    requires IsVertexAIRequest(options)
    ensures var r := GetClient("google/" + subModelName, options, baseURL);
      (r.Success? ==> r.value.VertexClient?) &&
      (r.Failure? ==> r.error.VertexConfig? && r.error.cause != GoogleVertex.VertexaiRequired)
    ensures var r := GetClient("google/" + subModelName, options, baseURL);
      var v := GoogleVertex.NewVertexOptions(options);
      (v.Success? ==> r == Success(VertexClient("google/" + subModelName, v.value))) &&
      (v.Failure? ==> r == Failure(VertexConfig(v.error)))
    ensures GetAISDKLanguageModel("google", subModelName, ApiKeyOf(options), options, baseURL) == Failure(VertexThroughAISdk)
  {
    var name := "google/" + subModelName;
    assert name == "google" + "/" + subModelName;
    SplitAtFirstOfJoin("google", '/', subModelName);
  }

  /** The with-key table lacks `ollama`, the default table has it: an `ollama/...` name fails
      with a truthy API key (listing the with-key table) and succeeds without one. */
  lemma OllamaOnlyWithoutApiKey(subModelName: string, options: Option<ClientOptions>, baseURL: JsValue)
    ensures var name := "ollama/" + subModelName;
      Truthy(ApiKeyOf(options)) ==>
        GetClient(name, options, baseURL) == Failure(UnsupportedAISDKModelProvider("ollama", AISDKProvidersWithAPIKey))
    ensures var name := "ollama/" + subModelName;
      !Truthy(ApiKeyOf(options)) ==>
        GetClient(name, options, baseURL) == Success(AISdkClient(LanguageModel("ollama", subModelName, DefaultInstance)))
  {
    var name := "ollama/" + subModelName;
    assert name == "ollama" + "/" + subModelName;
    SplitAtFirstOfJoin("ollama", '/', subModelName);
    if Truthy(ApiKeyOf(options)) {
      OllamaWithApiKey(name, subModelName, options, baseURL);
    } else {
      OllamaWithoutApiKey(name, subModelName, options, baseURL);
    }
  }

  /** With a truthy key the name is checked against the with-key table, which lacks `ollama`. */
  lemma OllamaWithApiKey(name: string, subModelName: string, options: Option<ClientOptions>, baseURL: JsValue)
    requires '/' in name && SplitAtFirst(name, '/') == ("ollama", subModelName)
    requires Truthy(ApiKeyOf(options))
    ensures GetClient(name, options, baseURL) == Failure(UnsupportedAISDKModelProvider("ollama", AISDKProvidersWithAPIKey))
  {
    assert "ollama" !in AISDKProvidersWithAPIKey;
  }

  /** Without a key the default table, which has `ollama`, supplies the provider. */
  lemma OllamaWithoutApiKey(name: string, subModelName: string, options: Option<ClientOptions>, baseURL: JsValue)
    requires '/' in name && SplitAtFirst(name, '/') == ("ollama", subModelName)
    requires !Truthy(ApiKeyOf(options))
    ensures GetClient(name, options, baseURL) == Success(AISdkClient(LanguageModel("ollama", subModelName, DefaultInstance)))
  {
    assert "ollama" in AISDKProviders;
  }

  /** The switch's `default` branch cannot be reached: `getClient` never reports
      `UnsupportedModelProviderError`. */
  lemma DefaultBranchUnreachable(modelName: string, options: Option<ClientOptions>, baseURL: JsValue)
    ensures var r := GetClient(modelName, options, baseURL);
      !(r.Failure? && r.error.UnsupportedModelProvider?)
  {
  }

  /** Reading `toString` from the static table yields an inherited function, so a bare
      `toString` reaches the `default` branch and reports an unsupported provider, while the
      own-property lookup reports the unknown model name. */
  lemma InheritedNameReachesDefault(name: string, options: Option<ClientOptions>, baseURL: JsValue)
    requires name in ObjectPrototypeKeys && name !in ModelToProvider && '/' !in name
    ensures DirectClientFor(StaticLookupAsWritten(name), name, options)
              == Failure(UnsupportedModelProvider(TableProviders))
    ensures GetClient(name, options, baseURL) == Failure(UnsupportedModel(ModelToProvider.Keys))
  {
  }

  /** The concrete input: a bare `toString`. */
  lemma ToStringReachesDefault(options: Option<ClientOptions>, baseURL: JsValue)
    ensures DirectClientFor(StaticLookupAsWritten("toString"), "toString", options)
              == Failure(UnsupportedModelProvider(TableProviders))
    ensures GetClient("toString", options, baseURL) == Failure(UnsupportedModel(ModelToProvider.Keys))
  {
    assert "toString" in ObjectPrototypeKeys && "toString" !in ModelToProvider && '/' !in "toString";
    InheritedNameReachesDefault("toString", options, baseURL);
  }

  /** `LLMProvider.getModelProvider`. */
  function GetModelProvider(modelName: string, usingOriginalProvider: bool): (r: Option<ModelProvider>)
    ensures r.None? <==> (modelName !in ModelToProvider &&
      !('/' in modelName && !usingOriginalProvider && SplitAtFirst(modelName, '/').0 in AISDKProviders))
  {
    if '/' in modelName && !usingOriginalProvider && SplitAtFirst(modelName, '/').0 in AISDKProviders then
      Some(AiSdk)
    else if modelName in ModelToProvider then
      Some(ModelToProvider[modelName])
    else
      None
  }

  /** `getModelProvider` answers `aisdk` exactly when the name is namespaced, the caller did not
      insist on the original provider and the sub-provider is in the default AI SDK table;
      otherwise it answers the static-table entry, or nothing. */
  lemma {:induction false} ModelProviderClassification(modelName: string, usingOriginalProvider: bool)
    ensures GetModelProvider(modelName, usingOriginalProvider) == Some(AiSdk) <==>
      '/' in modelName && !usingOriginalProvider && SplitAtFirst(modelName, '/').0 in AISDKProviders
    ensures GetModelProvider(modelName, usingOriginalProvider) != Some(AiSdk) ==>
      GetModelProvider(modelName, usingOriginalProvider) ==
        (if modelName in ModelToProvider then Some(ModelToProvider[modelName]) else None)
  {
    TableHasOnlyVendorFamilies();
  }

  /** A namespaced name whose sub-provider is in neither AI SDK table (and is not a Vertex
      request) fails with the unsupported-AI-SDK-provider error, with or without an API key. */
  lemma UnknownSubProviderRejected(modelName: string, options: Option<ClientOptions>, baseURL: JsValue)
    requires '/' in modelName
    requires SplitAtFirst(modelName, '/').0 !in AISDKProviders
    requires SplitAtFirst(modelName, '/').0 !in AISDKProvidersWithAPIKey
    ensures var r := GetClient(modelName, options, baseURL);
      r.Failure? && r.error.UnsupportedAISDKModelProvider? &&
      r.error.provider == SplitAtFirst(modelName, '/').0
  {
    assert "google" in AISDKProviders;
  }

  /** `moonshotai/kimi-k2-instruct` splits into `moonshotai` and `kimi-k2-instruct`. */
  lemma KimiNameSplits(name: string)
    requires name == "moonshotai/kimi-k2-instruct"
    ensures '/' in name && SplitAtFirst(name, '/').0 == "moonshotai"
  {
    assert name == "moonshotai" + "/" + "kimi-k2-instruct";
    SplitAtFirstOfJoin("moonshotai", '/', "kimi-k2-instruct");
  }

  /** `moonshotai` is in neither AI SDK table. */
  lemma MoonshotNotAISdk()
    ensures "moonshotai" !in AISDKProviders && "moonshotai" !in AISDKProvidersWithAPIKey
  { }

  /** The static table's entry `"moonshotai/kimi-k2-instruct": "groq"`. */
  lemma KimiInStaticTable()
    ensures "moonshotai/kimi-k2-instruct" in ModelToProvider
    ensures ModelToProvider["moonshotai/kimi-k2-instruct"] == Groq
  { }

  /** `getModelProvider` classifies `moonshotai/kimi-k2-instruct` as `groq`: `moonshotai` is
      not in the default AI SDK table, so the static entry `"moonshotai/kimi-k2-instruct": "groq"` answers. */
  lemma KimiClassifiedAsGroq(name: string)
    requires name == "moonshotai/kimi-k2-instruct"
    ensures GetModelProvider(name, false) == Some(Groq)
  {
    KimiNameSplits(name);
    MoonshotNotAISdk();
    KimiInStaticTable();
  }

  /** `getClient` sends `moonshotai/kimi-k2-instruct` down the namespaced path, where
      `moonshotai` is in neither AI SDK table, so it fails whatever the options. */
  lemma KimiUnroutable(name: string, options: Option<ClientOptions>, baseURL: JsValue)
    requires name == "moonshotai/kimi-k2-instruct"
    ensures var r := GetClient(name, options, baseURL);
      r.Failure? && r.error.UnsupportedAISDKModelProvider? && r.error.provider == "moonshotai"
  {
    KimiNameSplits(name);
    MoonshotNotAISdk();
    UnknownSubProviderRejected(name, options, baseURL);
  }

  /** The two together: the name is classified as `groq`, yet `getClient` cannot build a client
      for it. */
  lemma KimiClassifiedButUnroutable(options: Option<ClientOptions>, baseURL: JsValue)
    ensures GetModelProvider("moonshotai/kimi-k2-instruct", false) == Some(Groq)
    ensures var r := GetClient("moonshotai/kimi-k2-instruct", options, baseURL);
      r.Failure? && r.error.UnsupportedAISDKModelProvider? && r.error.provider == "moonshotai"
  {
    KimiClassifiedAsGroq("moonshotai/kimi-k2-instruct");
    KimiUnroutable("moonshotai/kimi-k2-instruct", options, baseURL);
  }

  /** The provider's state: the caching flag and, exactly when caching is on, a cache. */
  datatype LlmProviderState = LlmProviderState(enableCaching: bool, cache: Option<CacheHandle>)

  /** An opaque LLMCache instance. */
  datatype CacheHandle = CacheHandle

  /** The constructor: a cache exists exactly when caching is enabled. */
  function NewLlmProvider(enableCaching: bool): (p: LlmProviderState)
    ensures p.enableCaching == enableCaching
    ensures p.cache.Some? <==> enableCaching
  {
    LlmProviderState(enableCaching, if enableCaching then Some(CacheHandle) else None)
  }

  /** The calls `cleanRequestCache` makes on its collaborators. */
  datatype CacheCall = LogCleanup(requestId: string) | DeleteCacheForRequestId(requestId: string)

  /** `cleanRequestCache`: nothing when caching is disabled; otherwise one log line and then one
      deletion for exactly the given request id. */
  function CleanRequestCache(provider: LlmProviderState, requestId: string): (calls: seq<CacheCall>)
    ensures !provider.enableCaching ==> calls == []
    ensures provider.enableCaching ==>
      |calls| == 2 && calls[0].LogCleanup? && calls[|calls| - 1] == DeleteCacheForRequestId(requestId) &&
      (forall i :: 0 <= i < |calls| && calls[i].DeleteCacheForRequestId? ==> calls[i].requestId == requestId)
  {
    if !provider.enableCaching then []
    else [LogCleanup(requestId), DeleteCacheForRequestId(requestId)]
  }
}
