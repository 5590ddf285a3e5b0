// JSON values as the request normalizers decode them.
module Json {

  // A number keeps its text.
  datatype Json = Null | Bool(b: bool) | Num(text: string) | Str(s: string) | Arr(items: seq<Json>) | Obj(fields: Object)

  type Object = map<string, Json>

  function Get(o: Object, key: string): Json {
    if key in o then o[key] else Null
  }

  // A type assertion to string with its zero value.
  function TextOf(v: Json): string {
    if v.Str? then v.s else ""
  }
}
