/** Values of a decoded JSON document: what `json.loads` returns and what
    `requests` serialises from a Python dict. */
module JsonValue {

  datatype Json =
    | JNull
    | JBool(b: bool)
    | JInt(n: int)
    | JString(s: string)
    | JArray(items: seq<Json>)
    | JObject(fields: map<string, Json>)
}
