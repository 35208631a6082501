/**
 * JavaScript values as the frontend passes them around: plain objects are
 * spread (`{...a, ...b}`), read with `a.key` and tested for truthiness.
 * Numbers are integers here.
 */
module JsValues {
  import JsStrings

  datatype Json =
    | Undefined
    | Null
    | Bool(b: bool)
    | Num(n: int)
    | Str(s: string)
    | Arr(items: seq<Json>)
    | Obj(fields: map<string, Json>)

  /** A plain object: its own enumerable properties. A missing key reads as `undefined`. */
  type Object = map<string, Json>

  /** JavaScript truthiness (`!!v`). */
  predicate Truthy(v: Json) {
    match v
    case Undefined => false
    case Null => false
    case Bool(b) => b
    case Num(n) => n != 0
    case Str(s) => s != ""
    case Arr(_) => true
    case Obj(_) => true
  }

  /** `o.key` on a plain object. */
  function Get(o: Object, key: string): (v: Json)
    ensures key !in o ==> v == Undefined
  {
    if key in o then o[key] else Undefined
  }

  /** `v.key` on any value that is not null or undefined; primitives carry no such keys. */
  function Prop(v: Json, key: string): Json {
    if v.Obj? then Get(v.fields, key) else Undefined
  }

  /** `a || b`. */
  function Or(a: Json, b: Json): (r: Json)
    ensures Truthy(a) ==> r == a
    ensures !Truthy(a) ==> r == b
  {
    if Truthy(a) then a else b
  }

  /** An array of strings. */
  function StrArr(ss: seq<string>): (r: Json)
    ensures r.Arr? && |r.items| == |ss|
    ensures forall i :: 0 <= i < |ss| ==> r.items[i] == Str(ss[i])
  {
    Arr(seq(|ss|, i requires 0 <= i < |ss| => Str(ss[i])))
  }

  /** `String(v)`: the text a value turns into in a template literal or `setData`. */
  function ToText(v: Json): string {
    match v
    case Undefined => "undefined"
    case Null => "null"
    case Bool(b) => if b then "true" else "false"
    case Num(n) => if n < 0 then "-" + JsStrings.NatText(-n) else JsStrings.NatText(n)
    case Str(s) => s
    case Arr(items) => ItemsText(items)
    case Obj(_) => "[object Object]"
  }

  /** `String(array)`: the items joined by ",", with null and undefined as empty text. */
  function ItemsText(items: seq<Json>): string
    decreases items
  {
    if items == [] then ""
    else
      var head := if items[0].Undefined? || items[0].Null? then "" else ToText(items[0]);
      if |items| == 1 then head else head + "," + ItemsText(items[1..])
  }
}
