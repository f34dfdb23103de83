/** A JSON document as `JSONDecoder` sees it after parsing the text. Numbers are
    kept as integers: no field the model decodes is a number. */
module Json {

  datatype Json =
    | JNull
    | JBool(b: bool)
    | JNumber(n: int)
    | JString(s: string)
    | JArray(items: seq<Json>)
    | JObject(fields: map<string, Json>)
}
