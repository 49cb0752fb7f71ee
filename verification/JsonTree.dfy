// JSON documents with strings of type S, used for object keys and string values.
module JsonTree {
  datatype Json<S(==)> =
    | Null
    | Bool(value: bool)
    | Num(number: real)
    | Str(text: S)
    | Arr(items: seq<Json<S>>)
    | Obj(fields: map<S, Json<S>>)
  {
    predicate Scalar() { !Arr? && !Obj? }
  }
}
