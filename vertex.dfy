/** The Vertex handler's model resolution (src/api/providers/vertex.ts): an
    unknown id is replaced by the default id, the record is looked up under the
    full id, and a `:thinking` suffix is removed from the id sent on the wire. */
module VertexProvider {
  import opened Wrappers
  import opened ModelInfo
  import opened JsStrings

  /** The suffix that marks a hybrid reasoning model. */
  const Thinking: string := ":thinking"

  /** The selected id: the configured id when it is non-empty and a registry key,
      and the default id otherwise. */
  function SelectModelId(registry: map<string, Record>, defaultId: string, apiModelId: Option<string>): (id: string)
    ensures TruthyString(apiModelId) && apiModelId.value in registry ==> id == apiModelId.value
    ensures !(TruthyString(apiModelId) && apiModelId.value in registry) ==> id == defaultId
    ensures defaultId in registry ==> id in registry
  {
    if TruthyString(apiModelId) && apiModelId.value in registry then apiModelId.value else defaultId
  }

  /** The id sent to the API: `id.endsWith(":thinking") ? id.replace(":thinking", "") : id`. */
  function WireModelId(id: string): (r: string)
    ensures !EndsWith(id, Thinking) ==> r == id
    ensures EndsWith(id, Thinking) ==>
      IndexOf(id, Thinking).Some? && r == RemoveFirst(id, Thinking) && |r| == |id| - |Thinking|
  {
    if EndsWith(id, Thinking) then
      assert OccursAt(id, Thinking, |id| - |Thinking|);
      RemoveFirst(id, Thinking)
    else id
  }

  /** For an id whose only `:thinking` is its suffix, the wire id is the id
      without that suffix. */
  lemma WireIdDropsSoleSuffix(base: string)
    requires IndexOf(base, Thinking).None?
    ensures WireModelId(base + Thinking) == base
  {
    assert Thinking == [':', 't', 'h', 'i', 'n', 'k', 'i', 'n', 'g'];
    RemoveFirstOfSoleSuffix(base, Thinking);
  }

  /** The id, the effective record and nothing else of what `getModel` returns. */
  datatype ResolvedModel = ResolvedModel(id: string, info: Record)

  /** `getModel`: the record is the registry's record under the full selected
      id, suffix included, merged with the custom info; the id is the wire id. */
  function GetModel(registry: map<string, Record>, defaultId: string,
                    apiModelId: Option<string>, customInfo: Option<Record>): (r: ResolvedModel)
    requires defaultId in registry
    ensures var id := SelectModelId(registry, defaultId, apiModelId);
      r.info == SpreadMerge(registry[id], customInfo) && r.id == WireModelId(id)
  {
    var id := SelectModelId(registry, defaultId, apiModelId);
    ResolvedModel(WireModelId(id), SpreadMerge(registry[id], customInfo))
  }

  /** An id that is not a registry key is not resolved through its unsuffixed
      form: the default id and its record are used instead. */
  lemma UnknownIdUsesDefault(registry: map<string, Record>, defaultId: string,
                             apiModelId: string, customInfo: Option<Record>)
    requires defaultId in registry && apiModelId !in registry
    ensures GetModel(registry, defaultId, Some(apiModelId), customInfo)
         == ResolvedModel(WireModelId(defaultId), SpreadMerge(registry[defaultId], customInfo))
  {
  }

  /** A known `base:thinking` id keeps its own record and goes on the wire as `base`. */
  lemma ThinkingVariantResolution(registry: map<string, Record>, defaultId: string,
                                  base: string, customInfo: Option<Record>)
    requires defaultId in registry && base + Thinking in registry
    requires IndexOf(base, Thinking).None?
    ensures GetModel(registry, defaultId, Some(base + Thinking), customInfo)
         == ResolvedModel(base, SpreadMerge(registry[base + Thinking], customInfo))
  {
    WireIdDropsSoleSuffix(base);
  }
}
