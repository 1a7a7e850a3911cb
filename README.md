# Model capability resolution, stream normalisation and capability overrides

This project models in Dafny how Roo Code works out which model a provider
handler talks to and what that model can do. It also models how the handler
turns the provider's streamed chunks into events, and how the settings panels
edit a user's capability overrides. There are four parts:

- **Capability merge** (`ModelInfo`): `mergeModelInfo` layers a user's partial
  capability record (maximum tokens, context window, prices, feature flags)
  over a registry record. A JavaScript object is modelled as a map from key to
  `JsValue`. A key can be absent, present with `undefined` or `null`, or
  present with a value, and the object spread is map union.
- **Model resolution** (`RooProvider`, `IoIntelligenceProvider`,
  `VertexProvider`): each handler's `getModel` takes the registry and the
  default id as parameters.
  - Roo Code Cloud and IO Intelligence return the requested id verbatim.
    Their record comes from the requested key, then the default key, then a
    hard-coded fallback record.
  - Vertex substitutes the default id for an unknown id. It looks the record
    up under the full id and strips `:thinking` from the id sent to the API.
  - IO Intelligence's constructor refuses an empty API key.
- **Stream translation** (`RooProvider`): `createMessage` maps each
  OpenAI-style chunk to `text`, `reasoning` and `usage` events.
  - The function `Translate` defines the events chunk by chunk, concatenated.
  - The method `CreateMessage` appends the events in a loop and is proved
    equal to `Translate`.
- **Override editing** (`CapabilitySettings`, `ContextWindowInput`,
  `ClaudeCodeSettings`, `Widgets`): the data transforms of the settings
  panels.
  - `handleInputChange` updates one field of the patch, deletes every entry
    that is undefined or equal to the default, and stores `null` when nothing
    is left.
  - The context-window inputs rebuild an override record with a new
    `contextWindow`.
  - The border-colour and displayed-text rules of these panels.

`parseInt` is not modelled: its result is a parameter `Option<int>`, where
`None` stands for NaN. The registries, the default model ids and the sane
default records are parameters too.

Two behaviours of the code are worth stating plainly:

- A Vertex id that is not a registry key is replaced by the default id
  (src/api/providers/vertex.ts:18). This holds even when the id without its
  `:thinking` suffix is a registry key. `VertexProvider.UnknownIdUsesDefault`
  states this.
- A ClaudeCode custom context window of 0 is shown as "0". It does not fall
  back to the sane default, because `(0).toString()` is the non-empty string
  "0" (webview-ui/src/components/settings/providers/ClaudeCode.tsx:74).
  `ClaudeCodeSettings.TransformThenShow` states this.

The providers resolve their records with `ModelInfo.SpreadMerge`, which is
`mergeModelInfo` as written. So the nullish override described under
"## Findings" reaches every `getModel`. `ModelInfo.IntendedMerge` is the
corrected merge. `ModelInfo.MergesAgreeOnCleanPatch` proves that the two agree
on every patch without `null` or `undefined` values.

## Model

| member | source | states |
|---|---|---|
| `ModelInfo.SpreadMerge` | src/api/providers/utils/modelInfo.ts:11-19 | A missing patch returns the default record itself. Otherwise the result's keys are the union of both records' keys. Every key present in the patch takes the patch's value, nullish values included. Every key absent from the patch keeps the default's value, including the fields beyond the nine named ones. |
| `ModelInfo.MergeModelInfo` | src/api/providers/utils/modelInfo.ts:10-61 | The step-by-step merge (spread, then nine guarded re-assignments) returns exactly the spread's result, so the re-assignments never change anything. |
| `ModelInfo.SpreadMergeHonoursZero` | src/api/providers/utils/modelInfo.ts:23-45 | A present numeric override of 0 is kept in the result. It is not taken for "unset". |
| `ModelInfo.SpreadMergeHonoursFalse` | src/api/providers/utils/modelInfo.ts:48-58 | An explicit `false` for `supportsImages`, `supportsComputerUse` or `supportsPromptCache` wins over a `true` default. |
| `ModelInfo.SpreadMergeIdempotent` | src/api/providers/utils/modelInfo.ts:16-60 | Merging the same patch a second time gives the same record. |
| `ModelInfo.SpreadMergeEmptyPatch` | src/api/providers/utils/modelInfo.ts:11-19 | An empty patch `{}` takes the spread path and yields a record equal by value to the default. |
| `ModelInfo.NullishOverrideErasesDefault` | src/api/providers/utils/modelInfo.ts:16-25 | In the code as written, a patch `{maxTokens: null}` over `{maxTokens: 4096}` gives `maxTokens` the value `null`. The corrected merge keeps 4096. |
| `ModelInfo.IntendedMerge` | src/api/providers/utils/modelInfo.ts:21-58 | Corrected merge: a patch value overrides only when it passes its field's guard (numeric fields: not nullish; boolean fields: not undefined; other keys: always). Every other key keeps the default's value. The result has no keys beyond these two kinds. |
| `ModelInfo.IntendedMergeKeepsDefaultOnNullish` | src/api/providers/utils/modelInfo.ts:21-47 | In the corrected merge, a nullish numeric value or an undefined boolean leaves the default's field exactly as it was, including when the default has no such field. |
| `ModelInfo.IntendedMergeHonoursZeroAndFalse` | src/api/providers/utils/modelInfo.ts:23-58 | The corrected merge still honours 0 and `false`. |
| `ModelInfo.IntendedMergeIdempotent` | src/api/providers/utils/modelInfo.ts:16-60 | The corrected merge is idempotent. |
| `ModelInfo.MergesAgreeOnCleanPatch` | src/api/providers/utils/modelInfo.ts:16-58 | On a patch without nullish values, the code as written and the corrected merge give the same record. |
| `JsStrings.IndexOfFrom` | src/api/providers/vertex.ts:39 | Returns the first index at or after `from` where the pattern occurs, with no occurrence before it. `None` means the pattern occurs nowhere from `from` on. |
| `JsStrings.RemoveFirst` | src/api/providers/vertex.ts:39 | `replace(pattern, "")`. If the pattern does not occur, the string is unchanged. Otherwise its first occurrence is cut out and the string is one pattern-length shorter. |
| `JsStrings.RemoveFirstOfSoleSuffix` | src/api/providers/vertex.ts:39 | Assume the pattern's first character appears nowhere else in the pattern, and `base` does not contain the pattern. Then `base + pattern` ends with the pattern, its first occurrence is at the end, and removing it gives `base`. |
| `VertexProvider.SelectModelId` | src/api/providers/vertex.ts:17-18 | The selected id is the configured id when that id is non-empty and a registry key. Otherwise it is the default id. The selected id is always a registry key. |
| `VertexProvider.WireModelId` | src/api/providers/vertex.ts:35-39 | An id not ending in `:thinking` is returned unchanged. An id ending in it has its first `:thinking` removed, and the result is nine characters shorter. |
| `VertexProvider.WireIdDropsSoleSuffix` | src/api/providers/vertex.ts:39 | For an id whose only `:thinking` is its suffix, the wire id is the id without the suffix. |
| `VertexProvider.GetModel` | src/api/providers/vertex.ts:16-39 | The info is `SpreadMerge` (the merge as written) of the registry record under the full selected id (suffix included) with the custom info. The returned id is the wire form of the selected id. |
| `VertexProvider.UnknownIdUsesDefault` | src/api/providers/vertex.ts:17-23 | An id that is not a registry key resolves to the default id's wire form and the default's merged record. No unsuffixed lookup takes place. |
| `VertexProvider.ThinkingVariantResolution` | src/api/providers/vertex.ts:17-39 | A registry id `base:thinking` keeps its own record and goes on the wire as `base`. |
| `RooProvider.ChunkEventsShape` | src/api/providers/roo.ts:53-77 | Within one chunk, events come in the order text, reasoning, usage, at most one of each. A text event appears exactly when there is a delta with non-empty content, and carries it verbatim. A reasoning event appears exactly when `reasoning_content` is a string (the empty string included). A usage event appears exactly when the chunk carries usage, with missing counters as 0. |
| `RooProvider.TranslateAppend` | src/api/providers/roo.ts:52-78 | The events of two chunk streams in sequence are the events of the first followed by those of the second. |
| `RooProvider.EmptyChunkYieldsNothing` | src/api/providers/roo.ts:52-78 | A chunk with neither delta nor usage contributes nothing wherever it occurs. |
| `RooProvider.TextEventsAreContents` | src/api/providers/roo.ts:53-61 | The texts of the text events are exactly the non-empty chunk contents, verbatim and in stream order. |
| `RooProvider.OneUsageEventPerUsageChunk` | src/api/providers/roo.ts:71-77 | The number of usage events equals the number of chunks that carry usage. |
| `RooProvider.FourChunkStream` | src/api/providers/roo.ts:52-78 | Chunks with content only, usage only, both, and nothing yield text, usage, text, usage. |
| `RooProvider.RequestOptions` | src/api/providers/roo.ts:49 | Options are passed iff the task id is non-empty. They then consist of the single header `X-Roo-Task-ID` set to the task id. |
| `RooProvider.CreateMessage` | src/api/providers/roo.ts:40-78 | The loop's output is exactly `Translate(chunks)`, and the options it hands to the transport are `RequestOptions(taskId)`. |
| `RooProvider.GetModel` | src/api/providers/roo.ts:81-108 | The returned id is `apiModelId` when it is non-empty, else the default id, even when the record came from the default key or the fallback. The record is looked up under that id, else under the default id, else it is the fallback `{maxTokens 16384, contextWindow 262144, supportsImages false, supportsPromptCache true, prices 0}`. It is merged with the custom info by `SpreadMerge`, the merge as written, on every path. |
| `RooProvider.UnknownModelGetsFallback` | src/api/providers/roo.ts:91-107 | With no custom info and neither key known, the result is the fallback record itself, under the requested id. |
| `IoIntelligenceProvider.NewHandler` | src/api/providers/io-intelligence.ts:8-22 | Construction fails, with the source's message, exactly when the API key is absent or empty. Otherwise the handler carries that (non-empty) key and the options. |
| `IoIntelligenceProvider.GetModel` | src/api/providers/io-intelligence.ts:28-55 | The returned id is the configured id when it is non-empty, else the default id. It is returned unchanged on every path. The record comes from registry[id], else registry[default], else the fallback `{maxTokens 8192, contextWindow 128000, supportsImages false, supportsPromptCache false}`, and is always merged with the custom info by `SpreadMerge`, the merge as written. |
| `IoIntelligenceProvider.FallbackHonoursCustomContextWindow` | src/api/providers/io-intelligence.ts:40-49 | On the fallback path, a custom `contextWindow` of 0 replaces the fallback's value. All other fallback fields stay. |
| `CapabilitySettings.CurrentModelInfo` | webview-ui/src/components/settings/ModelCapabilitySettings.tsx:23-24 | A missing or null patch counts as `{}`. The shown record is the defaults overlaid by the patch: patch keys win, all other keys are the defaults'. |
| `CapabilitySettings.Prune` | webview-ui/src/components/settings/ModelCapabilitySettings.tsx:39-45 | The pruned patch holds no undefined value and no value equal to the default's. It is a sub-map of the patch, and it keeps every entry that is not redundant. |
| `CapabilitySettings.HandleInputChange` | webview-ui/src/components/settings/ModelCapabilitySettings.tsx:26-51 | The deletion loop computes exactly the write `StoredAfterEdit` describes. |
| `CapabilitySettings.EditPatchProperties` | webview-ui/src/components/settings/ModelCapabilitySettings.tsx:31-47 | Only `maxTokens`/`contextWindow` edits write, and they write under `modelInfoKey`. A stored patch is non-empty and clean; an empty result is stored as `null`. A non-numeric input removes the field. Other non-redundant entries survive unchanged. No key other than the edited one enters the patch. |
| `CapabilitySettings.EditShowsEnteredValue` | webview-ui/src/components/settings/ModelCapabilitySettings.tsx:23-47 | After an edit, the shown record holds the entered number in the edited field, or the default's value after a non-numeric input. This holds also when the number equals the default and was pruned. |
| `CapabilitySettings.EditKeepsOtherShownFields` | webview-ui/src/components/settings/ModelCapabilitySettings.tsx:23-45 | An edit leaves every other shown field as it was, provided that field's patch entry was not undefined. The lemma excludes such an entry, which pruning deletes. |
| `CapabilitySettings.EditIdempotent` | webview-ui/src/components/settings/ModelCapabilitySettings.tsx:31-47 | Repeating an edit on the patch it stored writes the same value again. |
| `Widgets.CountBorder` | webview-ui/src/components/settings/ModelCapabilitySettings.tsx:64-72 | Neutral iff the value is unset or 0, green iff positive, error iff negative. The same rule is at lines 93-101 and in ClaudeCode.tsx:80-88. |
| `Widgets.ContextWindowUpdate` | webview-ui/src/components/common/ContextWindow.tsx:31-39 | The edited record starts from the given record when present, else from the defaults, and keeps every other field (`supportsVision` among them). Its `contextWindow` is the parsed number, or the defaults' value on NaN. ClaudeCode.tsx:90-98 builds the same record from `CustomModelInfo` and `claudeCodeModelInfoSaneDefaults`. |
| `Widgets.FieldText` | webview-ui/src/components/settings/ModelCapabilitySettings.tsx:61 | The field shows the primary number when there is one (0 included), else the fallback number, else nothing. The same rule is at lines 88-90 and in ClaudeCode.tsx:73-76. |
| `ContextWindowInput.CurrentValue` | webview-ui/src/components/common/ContextWindow.tsx:26 | The current value is the record's `contextWindow` when that is not nullish (0 kept), else the default's. |
| `ContextWindowInput.BorderColor` | webview-ui/src/components/common/ContextWindow.tsx:29 | Green iff the current value is greater than 0, the error colour otherwise. |
| `ContextWindowInput.UpdateThenShow` | webview-ui/src/components/common/ContextWindow.tsx:26-39 | Showing the update again gives the parsed number, or the default's context window after NaN. |
| `ClaudeCodeSettings.MaxOutputTokens` | webview-ui/src/components/settings/providers/ClaudeCode.tsx:31 | The shown maximum is never 0. It is the configured value when that is set and non-zero, else 8000. |
| `ClaudeCodeSettings.DisplayedContextWindow` | webview-ui/src/components/settings/providers/ClaudeCode.tsx:72-77 | Shows the custom number when there is one (0 included), else the sane default's, else nothing. |
| `ClaudeCodeSettings.ContextWindowBorder` | webview-ui/src/components/settings/providers/ClaudeCode.tsx:80-88 | Judged on the custom value alone: neutral iff unset or 0, green iff positive, error iff negative. |
| `ClaudeCodeSettings.TransformThenShow` | webview-ui/src/components/settings/providers/ClaudeCode.tsx:73-98 | After a numeric input, the field shows that number (0 included), and its border follows the number's sign. |

## Left out

- JSX rendering, translations, the toolkit text fields, the `Slider` widget and `useCallback` memoisation are presentation, so they are not modelled. So are the provider panels that only pass props on (Glama, Groq, SambaNova, Cerebras, Fireworks).
- `createStream`, the OpenAI client, `for await` suspension and stream cancellation are transport, so they are left out. The chunks are an already-delivered sequence, and `RequestOptions` is what would be handed to the transport.
- The Roo handler's constructor (roo.ts:13-34) is left out. It reads a session token from a cloud-service singleton and a base URL from the environment, and neither is visible here.
- `getModelParams` and the `...params` spread in Vertex's result (vertex.ts:33, 39) are left out because that function's source is not part of this model. The `console.log` debugging (vertex.ts:25-31) is left out as I/O. `VertexProvider.ResolvedModel` holds only the id and the info.
- The Claude Code path input (ClaudeCode.tsx:16-19) and the slider's `onValueChange` (ClaudeCode.tsx:63) are left out: they write the input unchanged to the configuration.
- The registries, the default model ids, `openAiModelInfoSaneDefaults` and `claudeCodeModelInfoSaneDefaults` are parameters. Their contents are not modelled.
- `parseInt` string parsing is left out; its result is an `Option<int>` parameter.
- Numbers are Dafny reals. NaN and floating-point rounding are not represented.
- Prototype-chain keys (`"toString"` read through `in` or `[]` on a registry object) are not represented. A record is its own keys only.
- Object identity is not represented. The model cannot tell that `mergeModelInfo` returns `defaultInfo` itself for a missing patch but a fresh copy for `{}`: both are equal by value. Key order (`Object.keys`) is not represented either, and the pruning result does not depend on it.
- `VertexProvider.GetModel`: requires the default id to be a registry key, which the declared type `VertexModelId` guarantees. The path on which `vertexModels[id]` would be `undefined` is not modelled.
- A chunk without a `choices` array cannot be represented; `RooProvider.Chunk` holds at most one delta. On such a chunk `chunk.choices[0]?.delta` (roo.ts:53) would throw, but the declared chunk type of the OpenAI client guarantees the array, so that throw is not modelled.
- `Widgets.CountBorder`: requires a number or nullish value, as the fields' declared types guarantee. JavaScript's comparison of a string or an object with 0 is not modelled.
- `Widgets.FieldText`: requires number-or-nullish slots for the same reason. It does not model the text of other values.
- `ContextWindowInput.CurrentValue`: requires the default's `contextWindow` to be a number, as its declared type `number` guarantees. Without that, `currentValue.toString()` would throw, and this model does not include that throw.
- `ClaudeCodeSettings.DisplayedContextWindow`: requires number-or-nullish context windows, as the declared `ModelInfo` type guarantees.

## Findings

| source | as written | input that shows it | evidently intended | confidence | as-written member | corrected member |
|---|---|---|---|---|---|---|
| src/api/providers/utils/modelInfo.ts:16-58 | The spread copies every patch key, so a nullish numeric value (or an undefined boolean) replaces the default. The nine guarded re-assignments after the spread never change the result. | default `{maxTokens: 4096}`, patch `{maxTokens: null}`: the merged `maxTokens` is `null` | As the comment at lines 21-22 says, a value that is null or undefined does not override, so the default's 4096 stays | not executed; the re-assignments are certainly no-ops, the intent is read from the comment | `ModelInfo.NullishOverrideErasesDefault` | `ModelInfo.IntendedMerge` |
