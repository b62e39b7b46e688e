/** The JSON values the provider puts in its responses. */
module JsonValues {

  datatype Json =
    | Null
    | Bool(b: bool)
    | Number(n: int)
    | Str(s: string)
    | Object(members: seq<(string, Json)>)
}
