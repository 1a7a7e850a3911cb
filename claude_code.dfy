/** The Claude Code provider settings
    (webview-ui/src/components/settings/providers/ClaudeCode.tsx): the shown
    maximum output tokens and the custom context-window field. */
module ClaudeCodeSettings {
  import opened Wrappers
  import opened ModelInfo
  import opened Widgets

  const DefaultMaxOutputTokens: real := 8000.0

  /** `claudeCodeMaxOutputTokens || 8000`: an unset value or 0 shows 8000. */
  function MaxOutputTokens(configured: Option<real>): (r: real)
    ensures r != 0.0
    ensures configured.Some? && configured.value != 0.0 ==> r == configured.value
    ensures (configured.None? || configured.value == 0.0) ==> r == DefaultMaxOutputTokens
  {
    if configured.Some? && configured.value != 0.0 then configured.value else DefaultMaxOutputTokens
  }

  /** `CustomModelInfo?.contextWindow`. */
  function CustomContextWindow(customModelInfo: Option<Record>): JsValue {
    match customModelInfo
    case None => Undefined
    case Some(info) => Lookup(info, ContextWindow)
  }

  /** The context-window text: the custom number when there is one (0 included,
      since its text "0" is not empty), else the sane default's, else empty. */
  function DisplayedContextWindow(customModelInfo: Option<Record>, saneDefaults: Record): (shown: Option<real>)
    requires IsNumberOrNullish(CustomContextWindow(customModelInfo))
    requires IsNumberOrNullish(Lookup(saneDefaults, ContextWindow))
    ensures CustomContextWindow(customModelInfo).Num? ==> shown == Some(CustomContextWindow(customModelInfo).n)
    ensures !CustomContextWindow(customModelInfo).Num? && Lookup(saneDefaults, ContextWindow).Num? ==>
      shown == Some(Lookup(saneDefaults, ContextWindow).n)
    ensures !CustomContextWindow(customModelInfo).Num? && !Lookup(saneDefaults, ContextWindow).Num? ==>
      shown.None?
  {
    FieldText(CustomContextWindow(customModelInfo), Lookup(saneDefaults, ContextWindow))
  }

  /** The border of the context-window field, judged on the custom value alone. */
  function ContextWindowBorder(customModelInfo: Option<Record>): (b: Border)
    requires IsNumberOrNullish(CustomContextWindow(customModelInfo))
    ensures b == InputBorder <==>
      (Nullish(CustomContextWindow(customModelInfo)) || CustomContextWindow(customModelInfo) == Num(0.0))
    ensures b == ChartsGreen <==> CustomContextWindow(customModelInfo).Num? && CustomContextWindow(customModelInfo).n > 0.0
    ensures b == ErrorForeground <==> CustomContextWindow(customModelInfo).Num? && CustomContextWindow(customModelInfo).n < 0.0
  {
    CountBorder(CustomContextWindow(customModelInfo))
  }

  /** After a numeric input the field shows that number, 0 included, and its
      border follows the number's sign. */
  lemma TransformThenShow(customModelInfo: Option<Record>, saneDefaults: Record, n: int)
    requires IsNumberOrNullish(Lookup(saneDefaults, ContextWindow))
    ensures var after := Some(ContextWindowUpdate(customModelInfo, saneDefaults, Some(n)));
      && DisplayedContextWindow(after, saneDefaults) == Some(n as real)
      && ContextWindowBorder(after) == if n > 0 then ChartsGreen else if n == 0 then InputBorder else ErrorForeground
  {
  }
}
