/** The JavaScript values that `JSON.parse` produces, plus `undefined`,
    which appears when a missing property is read or written explicitly. */
module Json {

  datatype Value =
    | Undefined
    | Null
    | Bool(b: bool)
    | Num(n: real)
    | Str(s: string)
    | Arr(items: seq<Value>)
    | Obj(fields: map<string, Value>)

  /** A stored row: the own properties of a plain object. */
  type Row = map<string, Value>

  /** `null` and `undefined`: reading a property of either throws a TypeError. */
  predicate Nullish(v: Value)
  {
    v.Undefined? || v.Null?
  }

  /** JavaScript truthiness of a JSON value (JSON has no NaN). */
  predicate Truthy(v: Value)
  {
    match v
    case Undefined => false
    case Null => false
    case Bool(b) => b
    case Num(n) => n != 0.0
    case Str(s) => s != ""
    case Arr(_) => true
    case Obj(_) => true
  }

  /** Property read `v.key` on a non-nullish value. Only objects carry the
      keys this pipeline reads; on any other value the read is `undefined`. */
  function Prop(v: Value, key: string): (r: Value)
    requires !Nullish(v)
    ensures r != Undefined ==> v.Obj? && key in v.fields && r == v.fields[key]
    ensures v.Obj? && key in v.fields ==> r == v.fields[key]
  {
    if v.Obj? && key in v.fields then v.fields[key] else Undefined
  }

  /** The own properties that object spread `{...v}` copies. */
  function Spread(v: Value): (r: Row)
    ensures v.Obj? ==> r == v.fields
    ensures !v.Obj? ==> r == map[]
  {
    if v.Obj? then v.fields else map[]
  }

  /** The number `n` as JavaScript stores it. */
  function NumOf(n: nat): Value
  {
    Num(n as real)
  }
}
