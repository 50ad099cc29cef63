/** JSON values as the persistence layer sees them: a record is a JSON
    object, a map from keys to values. */
module Json {

  datatype Json =
    | Null
    | Bool(b: bool)
    | Number(n: int)
    | Str(s: string)
    | Array(elems: seq<Json>)
    | Object(fields: map<string, Json>)

  type Record = map<string, Json>
}
