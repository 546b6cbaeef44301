/** The part of `serde_json::Value` the model reads: objects, strings and
    non-negative integers, looked up the way `value["key"].as_str()` does. */
module Json {
  import opened Base

  datatype Json =
    | JNull
    | JBool(b: bool)
    | JNumber(n: int)
    | JString(s: string)
    | JArray(items: seq<Json>)
    | JObject(fields: map<string, Json>)

  /** `value[key]`: the field of an object, `Null` for anything else. */
  function Field(j: Json, key: string): (r: Json)
    ensures r != JNull ==> j.JObject? && key in j.fields && r == j.fields[key]
  {
    if j.JObject? && key in j.fields then j.fields[key] else JNull
  }

  /** `value[key].as_str()`. */
  function StrField(j: Json, key: string): (r: Option<string>)
    ensures r.Some? <==> Field(j, key).JString?
    ensures r.Some? ==> r.value == Field(j, key).s
  {
    match Field(j, key)
    case JString(s) => Some(s)
    case _ => None
  }

  /** `value[key].as_u64()`: integers in the 64-bit unsigned range only. */
  function U64Field(j: Json, key: string): (r: Option<u64>)
    ensures r.Some? ==> Field(j, key) == JNumber(r.value)
    ensures r.Some? <==> Field(j, key).JNumber? && 0 <= Field(j, key).n < U64_LIMIT
  {
    match Field(j, key)
    case JNumber(n) => if 0 <= n < U64_LIMIT then Some(n as u64) else None
    case _ => None
  }

  /** `value["result"]["code"].as_str()`: the gateway result code of a reply. */
  function ResultCode(j: Json): (r: Option<string>)
    ensures r.Some? <==> Field(Field(j, "result"), "code").JString?
    ensures r.Some? ==> r.value == Field(Field(j, "result"), "code").s
  {
    StrField(Field(j, "result"), "code")
  }

  /** An object holding `code` under `result`, as the gateway replies. */
  function WithResultCode(code: string): (r: Json)
    ensures ResultCode(r) == Some(code)
  {
    JObject(map["result" := JObject(map["code" := JString(code)])])
  }
}
