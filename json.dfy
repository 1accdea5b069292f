/** The decoded JSON values a request body is made of. */
module Json {

  /** One JSON value. JSON numbers are kept apart as integers and
      fractional numbers, because the schemas declare `int` and `float`
      fields separately. */
  datatype Json =
    | JNull
    | JBool(b: bool)
    | JInt(i: int)
    | JReal(r: real)
    | JString(s: string)
    | JArray(items: seq<Json>)
    | JObject(fields: map<string, Json>)

  /** A JSON object as the handlers receive it: field name to value. */
  type Payload = map<string, Json>
}
