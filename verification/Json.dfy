/** JSON values, as the request parameters, the stored objects and the fixtures use them. */
module Json {
  datatype Option<+T> = None | Some(value: T)

  /** Integers and floating-point numbers are compared as numbers throughout, so both are reals here. */
  datatype Json =
    | Null
    | Bool(b: bool)
    | Num(n: real)
    | Str(s: string)
    | Arr(items: seq<Json>)
    | Obj(fields: map<string, Json>)
}
