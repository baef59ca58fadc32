/** JSON values. Printing and parsing are parameters of the components that use them. */
module Json {
  import opened Text

  datatype Json =
    | Null
    | Bool(b: bool)
    | Number(digits: string)
    | Str(s: string)
    | Array(items: seq<Json>)
    | Object(fields: map<string, Json>)
}
