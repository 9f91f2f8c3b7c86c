/** An abstract JSON value: what `json.loads` produces and what `json.dumps` consumes. */
module Json {

  /** Numbers are exact rationals: integers, floats and the store's decimals alike. */
  datatype Value =
    | Null
    | Bool(b: bool)
    | Number(n: real)
    | Str(s: string)
    | Array(elements: seq<Value>)
    | Object(fields: map<string, Value>)
}
