/** JSON values as a structured-output parser or a tool-call argument
    produces them. Numbers are kept integral; floating point is not modelled. */
module JsonValues {

  datatype Json =
    | JNull
    | JBool(b: bool)
    | JNumber(n: int)
    | JString(s: string)
    | JArray(items: seq<Json>)
    | JObject(fields: map<string, Json>)
}
