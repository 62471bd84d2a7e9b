/** Decoded JSON values, as the display-name code sees them after the JSON
    decoder has run. The decoder itself is not modelled: callers pass it in
    as a `Parser`, whose `None` result stands for the decoder raising. */
module Json {
  import opened Wrappers

  datatype Value =
    | Null
    | Bool(b: bool)
    | Number(literal: string)
    | String(s: string)
    | Array(elems: seq<Value>)
    | Object(fields: map<string, Value>)

  type Parser = string -> Option<Value>
}
