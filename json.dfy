/**
 * JavaScript values as they appear in response bodies, with the operators the source applies to
 * them: truthiness, `a || b` and optional property access `a?.key`.
 */
module Json {

  datatype Json =
    | Undefined
    | Null
    | Bool(b: bool)
    | Num(n: real)
    | Str(s: string)
    | Arr(items: seq<Json>)
    | Obj(props: map<string, Json>)

  /** `undefined`, `null`, `false`, `0` and `""` are falsy; every array and object is truthy. */
  predicate Truthy(j: Json)
  {
    match j
    case Undefined => false
    case Null => false
    case Bool(b) => b
    case Num(n) => n != 0.0
    case Str(s) => s != ""
    case Arr(_) => true
    case Obj(_) => true
  }

  predicate Nullish(j: Json)
  {
    j.Undefined? || j.Null?
  }

  /** `a || b`: the left operand when it is truthy, otherwise the right one. */
  function Or(a: Json, b: Json): (r: Json)
    ensures Truthy(a) ==> r == a
    ensures !Truthy(a) ==> r == b
  {
    if Truthy(a) then a else b
  }

  /**
   * `j?.key`: the property of an object, and `undefined` for a missing key, for a nullish value
   * and for any other value without such an own property.
   */
  function Prop(j: Json, key: string): (r: Json)
    ensures Nullish(j) ==> r == Undefined
    ensures j.Obj? && key in j.props ==> r == j.props[key]
    ensures j.Obj? && key !in j.props ==> r == Undefined
  {
    if j.Obj? && key in j.props then j.props[key] else Undefined
  }
}
