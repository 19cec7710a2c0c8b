// The values that tools take and return.
module Json {
  datatype Value =
    | Nothing
    | Boolean(b: bool)
    | Number(n: int)
    | Text(s: string)
    | Items(items: seq<Value>)
    | Fields(fields: map<string, Value>)
}
