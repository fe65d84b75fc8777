/** What an event source hands to `this.$emit(event, meta)`, and the
    timestamps it computes with `Date.parse` / `new Date(x).valueOf()`. */
module SourceEvents {
  import opened JsValues

  /** One emitted event: the payload and the meta `{ id, summary, ts }`. */
  datatype Emitted = Emitted(body: Value, id: string, summary: Value, ts: Value)

  /** A date parser: the epoch milliseconds of a value, or None for `NaN`. */
  type DateParser = Value -> Option<int>

  /** The number a date parser yields, `NaN` when it cannot parse. */
  function TimeValue(parse: DateParser, v: Value): (r: Value)
    ensures r.Num? || r.NaN?
    ensures r.Num? <==> parse(v).Some?
  {
    match parse(v)
    case Some(n) => Num(n)
    case None => NaN
  }
}
