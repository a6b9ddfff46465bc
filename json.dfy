/** A JSON document (RFC 8259) as org.json hands it out after parsing: the parser itself
    is a library outside this model, so its outcome is an input. Numbers are integers only. */
module Json {
  import opened Wrappers

  datatype JsonValue =
    | JNull
    | JBool(b: bool)
    | JInt(n: int)
    | JString(s: string)
    | JArray(elems: seq<JsonValue>)
    | JObject(members: map<string, JsonValue>)

  /** The outcome of parsing a JSON text: it is not valid JSON, or it parses to a value. */
  datatype JsonText = Unparsable | Parsed(value: JsonValue)

  /** `JSONObject.getString(key)`: present only for a string member. */
  function GetString(obj: map<string, JsonValue>, key: string): (r: Option<string>)
  {
    if key in obj && obj[key].JString? then Some(obj[key].s) else None
  }

  /** `JSONObject.getLong(key)`: present only for an integer member. */
  function GetLong(obj: map<string, JsonValue>, key: string): (r: Option<int>)
  {
    if key in obj && obj[key].JInt? then Some(obj[key].n) else None
  }

  /** `JSONObject.optJSONObject(key)`: the member when it is an object, otherwise null. */
  function OptObject(obj: map<string, JsonValue>, key: string): (r: Option<map<string, JsonValue>>)
  {
    if key in obj && obj[key].JObject? then Some(obj[key].members) else None
  }
}
