/** Values exchanged with the AtTask REST API: optional values and decoded JSON documents. */
module Values {

  datatype Option<+T> = None | Some(value: T)

  /** A JSON document as `response.json()` decodes it. Numbers are integers: the
      core never does arithmetic on them, and floats are not modelled. */
  datatype Json =
    | JNull
    | JBool(b: bool)
    | JNum(n: int)
    | JStr(s: string)
    | JArr(items: seq<Json>)
    | JObj(fields: map<string, Json>)
}
