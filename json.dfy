/** The JSON values that cross the HTTP boundary, with the JavaScript property
    reads and truthiness tests that the client code applies to them. */
module Json {
  import opened Wrappers

  datatype Json =
    | Null
    | Bool(b: bool)
    | Num(n: int)
    | Str(s: string)
    | Arr(items: seq<Json>)
    | Obj(fields: map<string, Json>)

  /** `v.key` (or `v?.key`) read on a value that is not null: only objects
      carry named properties; on anything else the read is `undefined`. */
  function Field(v: Json, key: string): (r: Option<Json>)
    ensures r.Some? <==> v.Obj? && key in v.fields
    ensures r.Some? ==> r.value == v.fields[key]
  {
    match v
    case Obj(m) => if key in m then Some(m[key]) else None
    case _ => None
  }

  /** JavaScript truthiness of a JSON value. */
  predicate Truthy(v: Json) {
    match v
    case Null => false
    case Bool(b) => b
    case Num(n) => n != 0
    case Str(s) => s != ""
    case Arr(_) => true
    case Obj(_) => true
  }

  /** `v && typeof v === "object"`: true exactly for objects and arrays
      (`typeof null` is "object" too, but null is falsy). */
  predicate IsObjectLike(v: Json) {
    Truthy(v) && (v.Null? || v.Arr? || v.Obj?)
  }

  /** `v && Array.isArray(v)` for an optional property value. */
  predicate IsArrayField(v: Option<Json>) {
    v.Some? && Truthy(v.value) && v.value.Arr?
  }
}
