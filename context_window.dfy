/** The context-window input (webview-ui/src/components/common/ContextWindow.tsx):
    the value it shows, its border, and the record it hands to `onUpdate`. */
module ContextWindowInput {
  import opened Wrappers
  import opened ModelInfo
  import opened Widgets

  /** The fields the component reads are numbers or nullish, and the default's
      `contextWindow` is a number (its declared type is `number`). */
  predicate WellTyped(modelInfo: Option<Record>, defaultModelInfo: Record) {
    && (modelInfo.Some? ==> IsNumberOrNullish(Lookup(modelInfo.value, ContextWindow)))
    && Lookup(defaultModelInfo, ContextWindow).Num?
  }

  /** `modelInfo?.contextWindow ?? defaultModelInfo.contextWindow`: a 0 is kept. */
  function CurrentValue(modelInfo: Option<Record>, defaultModelInfo: Record): (v: real)
    requires WellTyped(modelInfo, defaultModelInfo)
    ensures modelInfo.Some? && Lookup(modelInfo.value, ContextWindow).Num? ==>
      v == Lookup(modelInfo.value, ContextWindow).n
    ensures (modelInfo.None? || Nullish(Lookup(modelInfo.value, ContextWindow))) ==>
      v == Lookup(defaultModelInfo, ContextWindow).n
  {
    if modelInfo.Some? && !Nullish(Lookup(modelInfo.value, ContextWindow))
    then Lookup(modelInfo.value, ContextWindow).n
    else Lookup(defaultModelInfo, ContextWindow).n
  }

  /** Green when the current value is positive, the error colour otherwise;
      never the neutral border. */
  function BorderColor(currentValue: real): (b: Border)
    ensures b == ChartsGreen <==> currentValue > 0.0
    ensures b == ErrorForeground <==> currentValue <= 0.0
  {
    if currentValue > 0.0 then ChartsGreen else ErrorForeground
  }

  /** Handing the update back to the component shows the parsed number, or the
      default's context window when the input was not a number. */
  lemma UpdateThenShow(modelInfo: Option<Record>, defaultModelInfo: Record, parsed: Option<int>)
    requires WellTyped(modelInfo, defaultModelInfo)
    ensures WellTyped(Some(ContextWindowUpdate(modelInfo, defaultModelInfo, parsed)), defaultModelInfo)
    ensures CurrentValue(Some(ContextWindowUpdate(modelInfo, defaultModelInfo, parsed)), defaultModelInfo)
         == if parsed.Some? then parsed.value as real else Lookup(defaultModelInfo, ContextWindow).n
  {
  }
}
