/** The settings panel that edits a provider's capability patch
    (webview-ui/src/components/settings/ModelCapabilitySettings.tsx): the shown
    record, and the edit that updates one field and then prunes the patch. */
module CapabilitySettings {
  import opened Wrappers
  import opened ModelInfo

  /** `apiConfiguration[modelInfoKey] || {}`: a missing or null patch is `{}`. */
  function CustomModelInfo(stored: Option<Record>): Record {
    match stored
    case None => map[]
    case Some(patch) => patch
  }

  /** `{...defaultModelInfo, ...customModelInfo}`: the defaults overlaid by the patch. */
  function CurrentModelInfo(stored: Option<Record>, defaults: Record): (r: Record)
    ensures stored.None? ==> r == defaults
    ensures r.Keys == defaults.Keys + CustomModelInfo(stored).Keys
    ensures forall k :: k in CustomModelInfo(stored) ==> r[k] == CustomModelInfo(stored)[k]
    ensures forall k :: k in defaults && k !in CustomModelInfo(stored) ==> r[k] == defaults[k]
  {
    defaults + CustomModelInfo(stored)
  }

  /** A patch entry the edit deletes: undefined, or `===` the default's value. */
  predicate Redundant(patch: Record, defaults: Record, k: string)
    requires k in patch
  {
    patch[k] == Undefined || patch[k] == Lookup(defaults, k)
  }

  /** A patch with no entry that the edit would delete. */
  predicate Clean(patch: Record, defaults: Record) {
    forall k :: k in patch ==> !Redundant(patch, defaults, k)
  }

  /** The patch with its redundant entries deleted: the largest clean part of it. */
  function Prune(patch: Record, defaults: Record): (r: Record)
    ensures Clean(r, defaults)
    ensures forall k :: k in r ==> k in patch && r[k] == patch[k]
    ensures forall k :: k in patch && !Redundant(patch, defaults, k) ==> k in r
  {
    map k | k in patch && !Redundant(patch, defaults, k) :: patch[k]
  }

  /** The value the edit writes into the field: the parsed number, or undefined
      when `parseInt` gave NaN (`None`). */
  function ParsedValue(parsed: Option<int>): JsValue {
    match parsed
    case None => Undefined
    case Some(n) => Num(n as real)
  }

  /** The patch right after `{...customModelInfo, [field]: value}`, before pruning. */
  function EditedPatch(stored: Option<Record>, field: string, parsed: Option<int>): Record {
    CustomModelInfo(stored)[field := ParsedValue(parsed)]
  }

  /** What an edit does to the configuration: nothing, or a write of a patch
      (`Some`) or of `null` (`None`) under the given key. */
  datatype ConfigUpdate = NoUpdate | SetField(key: string, value: Option<Record>)

  /** The configuration write that editing `field` performs. */
  function StoredAfterEdit(stored: Option<Record>, defaults: Record, modelInfoKey: string,
                           field: string, parsed: Option<int>): ConfigUpdate
  {
    if field != MaxTokens && field != ContextWindow then NoUpdate
    else
      var pruned := Prune(EditedPatch(stored, field, parsed), defaults);
      SetField(modelInfoKey, if |pruned| > 0 then Some(pruned) else None)
  }

  /** The patch stored for the key after the update (unchanged when nothing is written). */
  function StoredPatch(stored: Option<Record>, update: ConfigUpdate): Option<Record> {
    match update
    case NoUpdate => stored
    case SetField(_, value) => value
  }

  /** `handleInputChange(field)`: for `maxTokens` and `contextWindow` it builds
      the updated patch, deletes its redundant keys one by one, and stores the
      result, or `null` when nothing is left; any other field writes nothing. */
  method HandleInputChange(stored: Option<Record>, defaults: Record, modelInfoKey: string,
                           field: string, parsed: Option<int>)
    returns (update: ConfigUpdate)
    ensures update == StoredAfterEdit(stored, defaults, modelInfoKey, field, parsed)
  {
    if field != MaxTokens && field != ContextWindow {
      return NoUpdate;
    }
    var updated := CustomModelInfo(stored)[field := ParsedValue(parsed)];
    ghost var original := updated;
    var pending := updated.Keys;
    while pending != {}
      invariant pending <= original.Keys
      invariant updated == map k | k in original && (k in pending || !Redundant(original, defaults, k)) :: original[k]
      decreases pending
    {
      var key :| key in pending;
      if updated[key] == Undefined || updated[key] == Lookup(defaults, key) {
        updated := updated - {key};
      }
      pending := pending - {key};
    }
    assert updated == Prune(original, defaults);
    update := SetField(modelInfoKey, if |updated| > 0 then Some(updated) else None);
  }

  /** Only `maxTokens` and `contextWindow` edits write; the write goes under
      `modelInfoKey`; a stored patch is non-empty and clean (an empty one is
      stored as `null`); a non-numeric input removes the edited field; other
      entries survive unless they are redundant; nothing else enters the patch. */
  lemma EditPatchProperties(stored: Option<Record>, defaults: Record, modelInfoKey: string,
                            field: string, parsed: Option<int>, update: ConfigUpdate)
    requires update == StoredAfterEdit(stored, defaults, modelInfoKey, field, parsed)
    ensures field != MaxTokens && field != ContextWindow ==> update == NoUpdate
    ensures (field == MaxTokens || field == ContextWindow) ==> update.SetField? && update.key == modelInfoKey
    ensures update.SetField? && update.value.Some? ==>
      |update.value.value| > 0 && Clean(update.value.value, defaults)
    ensures update.SetField? && update.value.Some? && parsed.None? ==> field !in update.value.value
    ensures update.SetField? ==>
      forall k :: k != field && k in CustomModelInfo(stored) && !Redundant(CustomModelInfo(stored), defaults, k) ==>
        update.value.Some? && k in update.value.value && update.value.value[k] == CustomModelInfo(stored)[k]
    ensures update.SetField? && update.value.Some? ==>
      forall k :: k in update.value.value ==>
        k == field || (k in CustomModelInfo(stored) && update.value.value[k] == CustomModelInfo(stored)[k])
  {
    if update.SetField? {
      var pruned := Prune(EditedPatch(stored, field, parsed), defaults);
      forall k | k != field && k in CustomModelInfo(stored) && !Redundant(CustomModelInfo(stored), defaults, k)
        ensures k in pruned && pruned[k] == CustomModelInfo(stored)[k]
      {
        assert EditedPatch(stored, field, parsed)[k] == CustomModelInfo(stored)[k];
      }
    }
  }

  /** After an edit, the shown record holds the entered number in the edited
      field, or the default's value when the input was not a number. */
  lemma EditShowsEnteredValue(stored: Option<Record>, defaults: Record, modelInfoKey: string,
                              field: string, parsed: Option<int>)
    requires field == MaxTokens || field == ContextWindow
    ensures var after := StoredPatch(stored, StoredAfterEdit(stored, defaults, modelInfoKey, field, parsed));
      Lookup(CurrentModelInfo(after, defaults), field)
        == if parsed.Some? then Num(parsed.value as real) else Lookup(defaults, field)
  {
  }

  /** An edit leaves every other shown field as it was, except a field whose
      patch entry was undefined: that one shows the default again. */
  lemma EditKeepsOtherShownFields(stored: Option<Record>, defaults: Record, modelInfoKey: string,
                                  field: string, parsed: Option<int>, k: string)
    requires k != field
    requires !(k in CustomModelInfo(stored) && CustomModelInfo(stored)[k] == Undefined)
    ensures var after := StoredPatch(stored, StoredAfterEdit(stored, defaults, modelInfoKey, field, parsed));
      Lookup(CurrentModelInfo(after, defaults), k) == Lookup(CurrentModelInfo(stored, defaults), k)
  {
  }

  /** Repeating an edit on the patch it stored writes the same patch again. */
  lemma EditIdempotent(stored: Option<Record>, defaults: Record, modelInfoKey: string,
                       field: string, parsed: Option<int>)
    ensures var update := StoredAfterEdit(stored, defaults, modelInfoKey, field, parsed);
      StoredAfterEdit(StoredPatch(stored, update), defaults, modelInfoKey, field, parsed) == update
  {
    var update := StoredAfterEdit(stored, defaults, modelInfoKey, field, parsed);
    if update.SetField? {
      var p := EditedPatch(stored, field, parsed);
      var pruned := Prune(p, defaults);
      var again := Prune(EditedPatch(update.value, field, parsed), defaults);
      assert again == pruned;
    }
  }
}
