/** The values `json.loads` produces and `json.dump` writes. Numbers keep their literal text,
    so no floating-point arithmetic enters the model. */
module Json {
  datatype Json =
    | JNull
    | JBool(b: bool)
    | JNumber(literal: string)
    | JString(s: string)
    | JArray(items: seq<Json>)
    | JObject(members: seq<(string, Json)>)
}
