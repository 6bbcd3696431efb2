/** The decoded JSON value that `json.loads` hands to the router.
    Booleans are kept apart from numbers, as the draft-04 validator does. */
module JsonValue {

  datatype Json =
    | JNull
    | JBool(b: bool)
    | JNum(n: int)
    | JStr(s: string)
    | JArr(items: seq<Json>)
    | JObj(fields: map<string, Json>)
}
