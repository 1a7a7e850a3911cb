/** The IO Intelligence handler (src/api/providers/io-intelligence.ts): the
    constructor's API-key guard and model resolution with its fallback record. */
module IoIntelligenceProvider {
  import opened Wrappers
  import opened ModelInfo

  /** The handler options this handler reads. */
  datatype Options = Options(
    ioIntelligenceApiKey: Option<string>,
    ioIntelligenceModelId: Option<string>,
    ioIntelligenceCustomModelInfo: Option<Record>)

  /** A constructed handler: the API key it sends and the options it keeps. */
  datatype Handler = Handler(apiKey: string, options: Options)

  const MissingKeyMessage: string := "IO Intelligence API key is required"

  /** The constructor: it throws unless the API key is a non-empty string. */
  function NewHandler(options: Options): (r: Result<Handler, string>)
    ensures r.Failure? <==> !TruthyString(options.ioIntelligenceApiKey)
    ensures r.Failure? ==> r.error == MissingKeyMessage
    ensures r.Success? ==>
      r.value.apiKey == options.ioIntelligenceApiKey.value && r.value.apiKey != "" && r.value.options == options
  {
    if !TruthyString(options.ioIntelligenceApiKey) then Failure(MissingKeyMessage)
    else Success(Handler(options.ioIntelligenceApiKey.value, options))
  }

  /** The id and the effective capability record `getModel` returns. */
  datatype ResolvedModel = ResolvedModel(id: string, info: Record)

  /** The record used when neither the requested nor the default id is known. */
  const FallbackInfo: Record := map[
    MaxTokens := Num(8192.0),
    ContextWindow := Num(128000.0),
    SupportsImages := Bool(false),
    SupportsPromptCache := Bool(false)]

  /** `getModel`: the configured id (or the default id when none is set) is
      returned verbatim; its record comes from the registry under that id, else
      under the default id, else from `FallbackInfo`, and is merged with the
      custom info in every case. */
  function GetModel(handler: Handler, registry: map<string, Record>, defaultId: string): (r: ResolvedModel)
    ensures r.id == if TruthyString(handler.options.ioIntelligenceModelId)
                    then handler.options.ioIntelligenceModelId.value else defaultId
    ensures r.id in registry ==>
      r.info == SpreadMerge(registry[r.id], handler.options.ioIntelligenceCustomModelInfo)
    ensures r.id !in registry && defaultId in registry ==>
      r.info == SpreadMerge(registry[defaultId], handler.options.ioIntelligenceCustomModelInfo)
    ensures r.id !in registry && defaultId !in registry ==>
      r.info == SpreadMerge(FallbackInfo, handler.options.ioIntelligenceCustomModelInfo)
  {
    var modelId := if TruthyString(handler.options.ioIntelligenceModelId)
      then handler.options.ioIntelligenceModelId.value else defaultId;
    var customInfo := handler.options.ioIntelligenceCustomModelInfo;
    if modelId in registry then ResolvedModel(modelId, SpreadMerge(registry[modelId], customInfo))
    else if defaultId in registry then ResolvedModel(modelId, SpreadMerge(registry[defaultId], customInfo))
    else ResolvedModel(modelId, SpreadMerge(FallbackInfo, customInfo))
  }

  /** On the fallback path a custom context window of 0 survives the merge, and
      the fallback's other fields stay as they were. */
  lemma FallbackHonoursCustomContextWindow(handler: Handler, registry: map<string, Record>, defaultId: string)
    requires handler.options.ioIntelligenceCustomModelInfo == Some(map[ContextWindow := Num(0.0)])
    requires defaultId !in registry
    requires !TruthyString(handler.options.ioIntelligenceModelId) || handler.options.ioIntelligenceModelId.value !in registry
    ensures GetModel(handler, registry, defaultId).info
         == FallbackInfo[ContextWindow := Num(0.0)]
  {
    var r := GetModel(handler, registry, defaultId);
    var expected := FallbackInfo[ContextWindow := Num(0.0)];
    assert r.info.Keys == expected.Keys;
  }
}
