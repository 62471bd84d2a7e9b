/** The decoded tag tree the scanners walk, and the three ways the source
    touches it: a membership test (`key in t`), an index (`t[key]`) and
    iteration (`for x in t`). */
module Tags {
  import opened Wrappers

  /** One decoded tag. The integer widths of the format are not told apart,
      and a floating-point payload is kept as its raw bit pattern: the
      scanners only copy such values, never compute with them. */
  datatype Tag =
    | Int(i: int)
    | Float(bits: int)
    | Str(s: string)
    | List(elems: seq<Tag>)
    | Compound(fields: map<string, Tag>)

  /** The exceptions the scanned code can raise on a tree of unexpected shape. */
  datatype ScanError =
    | KeyMissing(key: string)     // `t[key]` on a compound without `key`
    | NotACompound(key: string)   // `t[key]` on a tag that is not a compound
    | NotAList                    // `len(t)` or `for x in t` on a tag that is not a list
    | NameNotText                 // the display name handed to the JSON decoder is not a string
    | MalformedJson               // the JSON decoder rejected the display name
    | NameNotAnObject             // `'text' in name` / `name['text']` on a decoded non-object
    | IdNotText                   // `keyword in id` with an `id` that is not a string

  /** `key in t`: true exactly for a compound holding `key`. */
  predicate Has(t: Tag, key: string) {
    t.Compound? && key in t.fields
  }

  /** `t[key]`, which raises when the key is absent. */
  function Index(t: Tag, key: string): Result<Tag, ScanError> {
    if !t.Compound? then Failure(NotACompound(key))
    else if key !in t.fields then Failure(KeyMissing(key))
    else Success(t.fields[key])
  }

  /** The elements `for x in t` visits, in storage order. */
  function Elements(t: Tag): Result<seq<Tag>, ScanError> {
    if t.List? then Success(t.elems) else Failure(NotAList)
  }

  /** The tag reached by following `path` through nested compounds, if every
      step is present. This is the reference the field-access code is
      measured against. */
  function Lookup(t: Tag, path: seq<string>): Option<Tag>
    decreases |path|
  {
    if path == [] then Some(t)
    else if Has(t, path[0]) then Lookup(t.fields[path[0]], path[1..])
    else None
  }
}
