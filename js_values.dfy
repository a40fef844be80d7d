/** The JavaScript values the agents pass around as parsed AI replies,
    reduced to what the core inspects: their shape and their truthiness. */
module JsValues {
  import opened Wrappers
  import opened Text

  datatype Json =
    | Undefined
    | Null
    | Bool(b: bool)
    | Num(n: real)
    | Str(s: string)
    | Arr(items: seq<Json>)
    | Obj(fields: map<string, Json>)

  /** JavaScript truthiness (`NaN` is not representable and so never arises). */
  predicate Truthy(v: Json) {
    match v
    case Undefined => false
    case Null => false
    case Bool(b) => b
    case Num(n) => n != 0.0
    case Str(s) => s != []
    case Arr(_) => true
    case Obj(_) => true
  }

  /** Property access `v.key`; `undefined` for a missing key or a non-object. */
  function Get(v: Json, key: string): (r: Json)
    ensures !v.Obj? ==> r == Undefined
    ensures v.Obj? && key !in v.fields ==> r == Undefined
  {
    if v.Obj? && key in v.fields then v.fields[key] else Undefined
  }

  /** Property assignment `v.key = value` on an object: that key now reads
      `value`, every other key reads as before. Only objects carry named
      properties here, so any other value is left as it is. */
  function SetField(v: Json, key: string, value: Json): (r: Json)
    ensures r.Obj? <==> v.Obj?
    ensures !v.Obj? ==> r == v
    ensures v.Obj? ==> Get(r, key) == value && r.fields.Keys == v.fields.Keys + {key}
    ensures forall k :: k != key ==> Get(r, k) == Get(v, k)
  {
    if v.Obj? then Obj(v.fields[key := value]) else v
  }

  /** `a || b`: the first operand when it is truthy, else the second. */
  function Or(a: Json, b: Json): (r: Json)
    ensures Truthy(a) ==> r == a
    ensures !Truthy(a) ==> r == b
  {
    if Truthy(a) then a else b
  }

  /** A JavaScript object, the only kind of value that can carry fields. */
  predicate IsObject(v: Json) { v.Obj? || v.Arr? }

  /** Indexing `v[k]`: an array element, a one-character string, or the
      object property named by the index; `undefined` otherwise. */
  function At(v: Json, k: nat): (r: Json)
    ensures v.Arr? && k < |v.items| ==> r == v.items[k]
    ensures (v.Undefined? || v.Null? || v.Bool? || v.Num?) ==> r == Undefined
  {
    match v
    case Arr(items) => if k < |items| then items[k] else Undefined
    case Str(s) => if k < |s| then Str([s[k]]) else Undefined
    case Obj(_) => Get(v, NatToString(k))
    case _ => Undefined
  }

  /** The message of the `TypeError` raised by reading `field` of `null`. */
  function NullRead(field: string): string {
    "Cannot read properties of null (reading '" + field + "')"
  }

  /** The message of the `TypeError` raised by calling `.substring` on a
      value without that method. */
  function NoSubstring(expression: string): string {
    expression + ".substring is not a function"
  }

  /** The error of destructuring a `null` options object. */
  function NullOptions(property: string): string {
    "Cannot destructure property '" + property + "' of 'options' as it is null."
  }

  /** A destructuring default: only an `undefined` property takes it. */
  function DefaultTo(v: Json, default: Json): (r: Json)
    ensures v.Undefined? ==> r == default
    ensures !v.Undefined? ==> r == v
  {
    if v.Undefined? then default else v
  }

  const UndefinedReadHead := "Cannot read properties of undefined (reading '"

  /** The message of the `TypeError` raised by reading `field` of `undefined`. */
  function UndefinedRead(field: string): string {
    UndefinedReadHead + field + "')"
  }
}
