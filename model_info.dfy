/** Model capability records and `mergeModelInfo`, which layers a user's partial
    record over a registry record (src/api/providers/utils/modelInfo.ts). */
module ModelInfo {
  import opened Wrappers

  /** A JavaScript value as it can sit in a field of a capability record. NaN is
      not representable; `Ref(address)` stands for an object or an array, which
      JavaScript's `===` compares by identity, as Dafny's `==` compares addresses. */
  datatype JsValue = Undefined | Null | Bool(b: bool) | Num(n: real) | Str(s: string) | Ref(address: nat)

  /** A plain JavaScript object: its own enumerable keys and their values. A key
      that is present with the value `Undefined` is not the same as an absent key. */
  type Record = map<string, JsValue>

  /** Property read `r[key]`: an absent key reads as `undefined`. */
  function Lookup(r: Record, key: string): JsValue {
    if key in r then r[key] else Undefined
  }

  /** JavaScript truthiness. */
  predicate Truthy(v: JsValue) {
    match v
    case Undefined => false
    case Null => false
    case Bool(b) => b
    case Num(n) => n != 0.0
    case Str(s) => s != ""
    case Ref(_) => true
  }

  /** The values that `??` replaces and that `!== undefined && !== null` rejects. */
  predicate Nullish(v: JsValue) {
    v == Undefined || v == Null
  }

  /** The values a field declared `number | null | undefined` can hold. */
  predicate IsNumberOrNullish(v: JsValue) {
    v.Num? || Nullish(v)
  }

  /** A non-empty string, which is what `modelId || fallback` tests for. */
  predicate TruthyString(s: Option<string>) {
    s.Some? && s.value != ""
  }

  const MaxTokens: string := "maxTokens"
  const ContextWindow: string := "contextWindow"
  const InputPrice: string := "inputPrice"
  const OutputPrice: string := "outputPrice"
  const CacheWritesPrice: string := "cacheWritesPrice"
  const CacheReadsPrice: string := "cacheReadsPrice"
  const SupportsImages: string := "supportsImages"
  const SupportsComputerUse: string := "supportsComputerUse"
  const SupportsPromptCache: string := "supportsPromptCache"

  /** The six numeric fields that the merge re-assigns only when not nullish. */
  const NumericOverrideKeys: set<string> :=
    {MaxTokens, ContextWindow, InputPrice, OutputPrice, CacheWritesPrice, CacheReadsPrice}

  /** The three boolean fields that the merge re-assigns only when not undefined. */
  const BooleanOverrideKeys: set<string> := {SupportsImages, SupportsComputerUse, SupportsPromptCache}

  /** The guard the merge applies to custom value `v` of field `key` before it
      re-assigns it; fields outside the nine named ones have no guard. */
  predicate Provided(key: string, v: JsValue) {
    if key in NumericOverrideKeys then !Nullish(v)
    else if key in BooleanOverrideKeys then v != Undefined
    else true
  }

  /** A patch in which no field holds `undefined` or `null`. */
  predicate NoNullishValues(c: Record) {
    forall k :: k in c ==> !Nullish(c[k])
  }

  /** What `mergeModelInfo(defaultInfo, customInfo)` computes as written: a
      missing patch returns the default record, and otherwise the object spread
      `{...defaultInfo, ...customInfo}` decides every field, nullish custom values
      included. */
  function SpreadMerge(defaultInfo: Record, customInfo: Option<Record>): (r: Record)
    ensures customInfo.None? ==> r == defaultInfo
    ensures customInfo.Some? ==> r.Keys == defaultInfo.Keys + customInfo.value.Keys
    ensures customInfo.Some? ==>
      forall k :: k in customInfo.value ==> k in r && r[k] == customInfo.value[k]
    ensures customInfo.Some? ==>
      forall k :: k in defaultInfo && k !in customInfo.value ==> k in r && r[k] == defaultInfo[k]
  {
    match customInfo
    case None => defaultInfo
    case Some(custom) => defaultInfo + custom
  }

  /** Re-assigning a spread field the value the patch gave it leaves the spread as it was. */
  lemma ReassignIsNoOp(defaultInfo: Record, custom: Record, key: string)
    requires Lookup(custom, key) != Undefined
    ensures (defaultInfo + custom)[key := Lookup(custom, key)] == defaultInfo + custom
  {
  }

  /** `mergeModelInfo` step by step, as the source writes it: the spread, then
      nine guarded re-assignments. None of them changes the spread's result. */
  method MergeModelInfo(defaultInfo: Record, customInfo: Option<Record>) returns (merged: Record)
    ensures merged == SpreadMerge(defaultInfo, customInfo)
  {
    if customInfo.None? {
      return defaultInfo;
    }
    var custom := customInfo.value;
    merged := defaultInfo + custom;
    if Lookup(custom, MaxTokens) != Undefined && Lookup(custom, MaxTokens) != Null {
      ReassignIsNoOp(defaultInfo, custom, MaxTokens);
      merged := merged[MaxTokens := Lookup(custom, MaxTokens)];
    }
    if Lookup(custom, ContextWindow) != Undefined && Lookup(custom, ContextWindow) != Null {
      ReassignIsNoOp(defaultInfo, custom, ContextWindow);
      merged := merged[ContextWindow := Lookup(custom, ContextWindow)];
    }
    if Lookup(custom, InputPrice) != Undefined && Lookup(custom, InputPrice) != Null {
      ReassignIsNoOp(defaultInfo, custom, InputPrice);
      merged := merged[InputPrice := Lookup(custom, InputPrice)];
    }
    if Lookup(custom, OutputPrice) != Undefined && Lookup(custom, OutputPrice) != Null {
      ReassignIsNoOp(defaultInfo, custom, OutputPrice);
      merged := merged[OutputPrice := Lookup(custom, OutputPrice)];
    }
    if Lookup(custom, CacheWritesPrice) != Undefined && Lookup(custom, CacheWritesPrice) != Null {
      ReassignIsNoOp(defaultInfo, custom, CacheWritesPrice);
      merged := merged[CacheWritesPrice := Lookup(custom, CacheWritesPrice)];
    }
    if Lookup(custom, CacheReadsPrice) != Undefined && Lookup(custom, CacheReadsPrice) != Null {
      ReassignIsNoOp(defaultInfo, custom, CacheReadsPrice);
      merged := merged[CacheReadsPrice := Lookup(custom, CacheReadsPrice)];
    }
    if Lookup(custom, SupportsImages) != Undefined {
      ReassignIsNoOp(defaultInfo, custom, SupportsImages);
      merged := merged[SupportsImages := Lookup(custom, SupportsImages)];
    }
    if Lookup(custom, SupportsComputerUse) != Undefined {
      ReassignIsNoOp(defaultInfo, custom, SupportsComputerUse);
      merged := merged[SupportsComputerUse := Lookup(custom, SupportsComputerUse)];
    }
    if Lookup(custom, SupportsPromptCache) != Undefined {
      ReassignIsNoOp(defaultInfo, custom, SupportsPromptCache);
      merged := merged[SupportsPromptCache := Lookup(custom, SupportsPromptCache)];
    }
  }

  /** The merge its comments describe: a custom value overrides the default only
      when it passes its field's guard (`Provided`), so a nullish numeric value or
      an undefined boolean leaves the default in place. The providers use this one. */
  function IntendedMerge(defaultInfo: Record, customInfo: Option<Record>): (r: Record)
    ensures customInfo.None? ==> r == defaultInfo
    ensures customInfo.Some? ==>
      forall k :: k in customInfo.value && Provided(k, customInfo.value[k]) ==>
        k in r && r[k] == customInfo.value[k]
    ensures customInfo.Some? ==>
      forall k :: k in defaultInfo && !(k in customInfo.value && Provided(k, customInfo.value[k])) ==>
        k in r && r[k] == defaultInfo[k]
    ensures customInfo.Some? ==>
      forall k :: k in r ==> k in defaultInfo || (k in customInfo.value && Provided(k, customInfo.value[k]))
  {
    match customInfo
    case None => defaultInfo
    case Some(custom) => defaultInfo + map k | k in custom && Provided(k, custom[k]) :: custom[k]
  }

  /** As written, a present numeric override of 0 wins over the default. */
  lemma SpreadMergeHonoursZero(defaultInfo: Record, custom: Record, key: string)
    requires key in NumericOverrideKeys && key in custom && custom[key] == Num(0.0)
    ensures Lookup(SpreadMerge(defaultInfo, Some(custom)), key) == Num(0.0)
  {
  }

  /** As written, an explicit `false` for a boolean field wins over a `true` default. */
  lemma SpreadMergeHonoursFalse(defaultInfo: Record, custom: Record, key: string)
    requires key in BooleanOverrideKeys && Lookup(defaultInfo, key) == Bool(true)
    requires key in custom && custom[key] == Bool(false)
    ensures Lookup(SpreadMerge(defaultInfo, Some(custom)), key) == Bool(false)
  {
  }

  /** Merging the same patch twice changes nothing further. */
  lemma SpreadMergeIdempotent(defaultInfo: Record, customInfo: Option<Record>)
    ensures SpreadMerge(SpreadMerge(defaultInfo, customInfo), customInfo) == SpreadMerge(defaultInfo, customInfo)
  {
  }

  /** An empty patch `{}` (truthy, so it takes the spread path) gives a record
      equal by value to the default. */
  lemma SpreadMergeEmptyPatch(defaultInfo: Record)
    ensures SpreadMerge(defaultInfo, Some(map[])) == defaultInfo
  {
  }

  /** The source as written lets a `null` custom `maxTokens` erase the default's
      value, although its comment says only provided values override. */
  lemma NullishOverrideErasesDefault()
    ensures Lookup(SpreadMerge(map[MaxTokens := Num(4096.0)], Some(map[MaxTokens := Null])), MaxTokens) == Null
    ensures Lookup(IntendedMerge(map[MaxTokens := Num(4096.0)], Some(map[MaxTokens := Null])), MaxTokens) == Num(4096.0)
  {
  }

  /** In the corrected merge a nullish numeric value, or an undefined boolean,
      keeps the default's field exactly as it was, absent included. */
  lemma IntendedMergeKeepsDefaultOnNullish(defaultInfo: Record, custom: Record, key: string)
    requires key in custom
    requires (key in NumericOverrideKeys && Nullish(custom[key]))
          || (key in BooleanOverrideKeys && custom[key] == Undefined)
    ensures Lookup(IntendedMerge(defaultInfo, Some(custom)), key) == Lookup(defaultInfo, key)
  {
  }

  /** The corrected merge still honours 0 for numeric fields and `false` for
      boolean fields. */
  lemma IntendedMergeHonoursZeroAndFalse(defaultInfo: Record, custom: Record, key: string)
    requires key in custom
    requires (key in NumericOverrideKeys && custom[key] == Num(0.0))
          || (key in BooleanOverrideKeys && custom[key] == Bool(false))
    ensures Lookup(IntendedMerge(defaultInfo, Some(custom)), key) == custom[key]
  {
  }

  /** The corrected merge is idempotent too. */
  lemma IntendedMergeIdempotent(defaultInfo: Record, customInfo: Option<Record>)
    ensures IntendedMerge(IntendedMerge(defaultInfo, customInfo), customInfo) == IntendedMerge(defaultInfo, customInfo)
  {
  }

  /** On every patch without nullish values, the source as written and the
      corrected merge give the same record. */
  lemma MergesAgreeOnCleanPatch(defaultInfo: Record, custom: Record)
    requires NoNullishValues(custom)
    ensures IntendedMerge(defaultInfo, Some(custom)) == SpreadMerge(defaultInfo, Some(custom))
  {
  }
}
