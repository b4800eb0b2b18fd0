/**
 * JSON-like values: what `json.loads`, `yaml.safe_load` and Pydantic's
 * `model_json_schema` produce, as a tagged union instead of duck-typed
 * Python objects. A Python dict is a `JObject`, a list a `JArray`.
 */
module Json {

  datatype Json =
    | JObject(fields: map<string, Json>)
    | JArray(items: seq<Json>)
    | JString(str: string)
    | JNumber(num: int)
    | JBool(flag: bool)
    | JNull

  /** A value that is neither a mapping nor a list. */
  predicate IsScalar(j: Json) {
    !j.JObject? && !j.JArray?
  }
}
