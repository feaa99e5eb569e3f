/**
 * Parsed JSON values, as `JSON.parse` hands them to the code. Numbers are
 * integral here: every number the bridge writes into a record (ports and
 * counts) is an integer.
 */
module Json {

  datatype Json =
    | JNull
    | JBool(b: bool)
    | JNum(n: int)
    | JStr(s: string)
    | JArr(items: seq<Json>)
    | JObj(fields: map<string, Json>)

  /** An object with the given fields; `{ type, ...data }` when `data` has no `type` key. */
  function Tagged(tag: string, data: map<string, Json>): (j: Json)
    ensures j.JObj? && "type" in j.fields
    ensures "type" !in data ==> j.fields["type"] == JStr(tag)
    ensures forall k :: k in data ==> k in j.fields && j.fields[k] == data[k]
    ensures forall k :: k in j.fields ==> k == "type" || k in data
  {
    JObj(map["type" := JStr(tag)] + data)
  }
}
