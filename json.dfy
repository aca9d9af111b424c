/** Decoded JSON values, as Python's `json` module hands them to the scrapers. */
module Json {

  /** Numbers are kept as reals: Python's `int` and `float` both pass `isinstance(x, (int, float))`. */
  datatype Json =
    | JNull
    | JBool(b: bool)
    | JNumber(n: real)
    | JString(s: string)
    | JArray(items: seq<Json>)
    | JObject(fields: map<string, Json>)
}
