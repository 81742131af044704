/** The JSON document tree that `serde_json::Value` builds; rendering it to
    text is not part of the model. Objects are maps, as in `serde_json`
    without its `preserve_order` feature. */
module JsonTree {
  import opened Numeric

  datatype Json =
    | JNull
    | JBool(b: bool)
    | JNum(n: int)
    | JFloat(f: F64)
    | JStr(s: string)
    | JArr(items: seq<Json>)
    | JObj(fields: map<string, Json>)
}
