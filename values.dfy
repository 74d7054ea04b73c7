/** JSON-like values: what a session dictionary and a job's keyword arguments hold. */
module Values {

  datatype Value =
    | Null
    | Bool(b: bool)
    | Int(i: int)
    | Str(s: string)
    | List(items: seq<Value>)
    | Dict(fields: map<string, Value>)
}
