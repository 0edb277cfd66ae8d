/** JSON documents: schemas, faked skeletons and the data injected into them. */
module JsonValues {

  datatype Json =
    | Null
    | Bool(b: bool)
    | Num(x: real)
    | Str(s: string)
    | Arr(items: seq<Json>)
    | Obj(fields: map<string, Json>)
}
