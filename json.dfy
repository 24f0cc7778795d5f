/** Already-decoded JSON values, as `encoding/json` hands them over in
    `map[string]any` / `interface{}`. */
module Json {

  datatype Value =
    | Null
    | Bool(b: bool)
    | Number(n: int)
    | Str(s: string)
    | Array(items: seq<Value>)
    | Object(fields: map<string, Value>)
}
