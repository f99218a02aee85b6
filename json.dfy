/** Parsed JSON values, as `JSON.parse` hands them to the application.
    The parser itself is foreign code and is not modelled: callers receive
    its result as an `Option<JsonValue>` (None for a syntax error). */
module Json {

  /** Some value, or none (a failed parse, a `null` colour). */
  datatype Option<+T> = None | Some(value: T)

  /** A JSON value. Numbers are restricted to integers; an object is the
      map from its keys to their values (for a repeated key `JSON.parse`
      keeps the last occurrence, which a map also does). */
  datatype JsonValue =
    | JNull
    | JBool(b: bool)
    | JNumber(n: int)
    | JString(s: string)
    | JArray(elems: seq<JsonValue>)
    | JObject(fields: map<string, JsonValue>)
}
