/** JavaScript values, as far as the camera component inspects them. */
module JsValues {

  datatype Option<+T> = None | Some(value: T)

  /** The platform the component runs on (`Platform.OS`). */
  datatype Platform = Android | Ios | OtherPlatform

  /**
   * A JavaScript value. Numbers are reals (NaN is not modelled); callbacks and
   * structured values (points, rectangles, arrays, elements) are opaque and only
   * their identity matters.
   */
  datatype Value =
    | Undefined
    | Null
    | Bool(b: bool)
    | Num(n: real)
    | Str(s: string)
    | Func(fid: nat)
    | Obj(oid: nat)

  /** JavaScript truthiness: `undefined`, `null`, `false`, `0` and `""` are falsy. */
  predicate Truthy(v: Value) {
    match v
    case Undefined => false
    case Null => false
    case Bool(b) => b
    case Num(n) => n != 0.0
    case Str(s) => s != ""
    case Func(_) => true
    case Obj(_) => true
  }

  /** A plain object: its own properties, in no particular order. */
  type JsObject = map<string, Value>

  /** Property read `o[key]`: a missing property reads as `undefined`. */
  function Get(o: JsObject, key: string): (v: Value)
    ensures key !in o ==> v == Undefined
  {
    if key in o then o[key] else Undefined
  }

  /** Reading `table[name]` on a table of native numeric codes. */
  function Code(table: map<string, int>, name: string): (v: Value)
    ensures v.Undefined? <==> name !in table
    ensures v.Num? || v.Undefined?
  {
    if name in table then Num(table[name] as real) else Undefined
  }
}
