/** The JavaScript values that travel through the client: request bodies,
    response bodies and the fields of the payloads the services build. */
module JsValues {
  import opened Wrappers
  import opened Text

  /** A JavaScript value as far as the client and the services look at it.
      Numbers are integers: no payload field or status code needs a
      fraction, and NaN does not arise. */
  datatype JsValue =
    | Undefined
    | Null
    | Bool(b: bool)
    | Num(n: int)
    | Str(s: string)
    | Arr(items: seq<JsValue>)
    | Obj(fields: map<string, JsValue>)

  /** JavaScript truthiness: `undefined`, `null`, `false`, `0` and `""` are falsy. */
  predicate Truthy(v: JsValue): (b: bool)
    ensures b ==> !Nullish(v)
    ensures v.Str? ==> (b <==> v.s != "")
  {
    match v
    case Undefined => false
    case Null => false
    case Bool(b) => b
    case Num(n) => n != 0
    case Str(s) => s != ""
    case Arr(_) => true
    case Obj(_) => true
  }

  /** `null` or `undefined`: reading a property of either throws a TypeError. */
  predicate Nullish(v: JsValue) {
    v.Undefined? || v.Null?
  }

  /** The JavaScript expression `a || b`. */
  function Or(a: JsValue, b: JsValue): (r: JsValue)
    ensures Truthy(a) ==> r == a
    ensures !Truthy(a) ==> r == b
    ensures Truthy(r) <==> Truthy(a) || Truthy(b)
  {
    if Truthy(a) then a else b
  }

  /** The JavaScript expression `a !== undefined ? a : b`. */
  function IfDefined(a: JsValue, b: JsValue): (r: JsValue)
    ensures a.Undefined? ==> r == b
    ensures !a.Undefined? ==> r == a
    ensures r.Undefined? <==> a.Undefined? && b.Undefined?
  {
    if !a.Undefined? then a else b
  }

  /** Property access `v.key` on a value that is not nullish: a missing key,
      or a value that is not an object, reads as `undefined`. */
  function Prop(v: JsValue, key: string): (r: JsValue)
    ensures v.Obj? && key in v.fields ==> r == v.fields[key]
    ensures r != Undefined ==> v.Obj? && key in v.fields && v.fields[key] == r
  {
    if v.Obj? && key in v.fields then v.fields[key] else Undefined
  }

  /** An optional string parameter as the JavaScript value the service sees. */
  function OptStr(o: Option<string>): JsValue {
    match o
    case Some(s) => Str(s)
    case None => Undefined
  }

  /** An optional boolean parameter as the JavaScript value the service sees. */
  function OptBool(o: Option<bool>): JsValue {
    match o
    case Some(b) => Bool(b)
    case None => Undefined
  }

  /** An optional number parameter as the JavaScript value the service sees. */
  function OptNum(o: Option<int>): JsValue {
    match o
    case Some(n) => Num(n)
    case None => Undefined
  }

  /** A JavaScript array of strings. */
  function Strings(ss: seq<string>): (r: JsValue)
    ensures r.Arr? && |r.items| == |ss|
    ensures forall i :: 0 <= i < |ss| ==> r.items[i] == Str(ss[i])
  {
    Arr(seq(|ss|, i requires 0 <= i < |ss| => Str(ss[i])))
  }

  /** `String(v)`, as template-string interpolation renders a value: arrays
      join their elements with `,` (a `null` or `undefined` element renders
      empty), and every object renders `[object Object]`. */
  function ToJsString(v: JsValue): string
    decreases v
  {
    match v
    case Undefined => "undefined"
    case Null => "null"
    case Bool(b) => if b then "true" else "false"
    case Num(n) => IntToString(n)
    case Str(s) => s
    case Arr(items) =>
      Join(seq(|items|, i requires 0 <= i < |items| => if Nullish(items[i]) then "" else ToJsString(items[i])), ",")
    case Obj(_) => "[object Object]"
  }
}
