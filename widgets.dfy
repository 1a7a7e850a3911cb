/** Rules shared by the settings components: the border colour of a numeric
    text field, the text such a field shows, and the record a context-window
    input hands on. */
module Widgets {
  import opened Wrappers
  import opened ModelInfo

  /** `var(--vscode-input-border)`, `var(--vscode-charts-green)` and
      `var(--vscode-errorForeground)`. */
  datatype Border = InputBorder | ChartsGreen | ErrorForeground

  /** The border rule `!value ? neutral : value > 0 ? green : error` of a field
      that holds a number or nothing. */
  function CountBorder(value: JsValue): (b: Border)
    requires IsNumberOrNullish(value)
    ensures b == InputBorder <==> (Nullish(value) || value == Num(0.0))
    ensures b == ChartsGreen <==> (value.Num? && value.n > 0.0)
    ensures b == ErrorForeground <==> (value.Num? && value.n < 0.0)
  {
    if !Truthy(value) then InputBorder
    else if value.n > 0.0 then ChartsGreen
    else ErrorForeground
  }

  /** The text of `primary?.toString() || fallback?.toString() || ""` over two
      numeric slots; `None` is the empty string. A number's text is never empty,
      so a 0 in `primary` is shown rather than replaced. */
  function FieldText(primary: JsValue, fallback: JsValue): (shown: Option<real>)
    requires IsNumberOrNullish(primary) && IsNumberOrNullish(fallback)
    ensures shown.Some? <==> (primary.Num? || fallback.Num?)
    ensures primary.Num? ==> shown == Some(primary.n)
    ensures !primary.Num? && fallback.Num? ==> shown == Some(fallback.n)
  {
    if primary.Num? then Some(primary.n)
    else if fallback.Num? then Some(fallback.n)
    else None
  }

  /** The record both context-window inputs hand on when edited:
      `{...(record || defaults), contextWindow: isNaN(parsed) ?
      defaults.contextWindow : parsed}`. Every other field of the starting
      record is kept; `contextWindow` is the parsed number, or the defaults'
      value when `parseInt` gave NaN (`None`). */
  function ContextWindowUpdate(record: Option<Record>, defaults: Record, parsed: Option<int>): (r: Record)
    ensures var base := if record.Some? then record.value else defaults;
      && r.Keys == base.Keys + {ContextWindow}
      && (forall k :: k in base && k != ContextWindow ==> r[k] == base[k])
    ensures r[ContextWindow] == if parsed.Some? then Num(parsed.value as real)
                                else Lookup(defaults, ContextWindow)
  {
    var base := if record.Some? then record.value else defaults;
    base[ContextWindow := if parsed.Some? then Num(parsed.value as real) else Lookup(defaults, ContextWindow)]
  }
}
