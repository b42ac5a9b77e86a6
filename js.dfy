/** The JavaScript values the controller handles, with the language's notion
    of truthiness and the value-returning `||` and `&&` operators on which the
    controller's decisions rest. */
module Js {

  /** Request fields (parsed JSON), configuration settings and the objects
      the cryptographic library hands back. Numbers are integers here. */
  datatype JsValue =
    | Undefined
    | Null
    | Bool(b: bool)
    | Num(n: int)
    | Str(s: string)
    | Obj(fields: map<string, JsValue>)

  /** A plain object: its own properties by name. */
  type Bag = map<string, JsValue>

  /** What `if (v)` decides: undefined, null, false, 0 and "" are falsy,
      every object is truthy. */
  predicate Truthy(v: JsValue) {
    match v
    case Undefined => false
    case Null => false
    case Bool(b) => b
    case Num(n) => n != 0
    case Str(s) => s != ""
    case Obj(_) => true
  }

  /** Reading `o.name`: a property that is not there reads as undefined. */
  function Get(o: Bag, name: string): JsValue {
    if name in o then o[name] else Undefined
  }

  /** The properties a read `v.name` can find. Reading a property of a
      boolean, number or string finds none of the names the controller uses;
      undefined and null have none either (reading them throws, which the
      callers model where it can happen). */
  function Fields(v: JsValue): Bag {
    if v.Obj? then v.fields else map[]
  }

  /** `a || b`: the left operand when it is truthy, else the right one. */
  function Or(a: JsValue, b: JsValue): (r: JsValue)
    ensures Truthy(r) <==> Truthy(a) || Truthy(b)
    ensures r == a || r == b
    ensures Truthy(a) ==> r == a
    ensures !Truthy(a) ==> r == b
  {
    if Truthy(a) then a else b
  }

  /** `a && b`: the left operand when it is falsy, else the right one. */
  function And(a: JsValue, b: JsValue): (r: JsValue)
    ensures Truthy(r) <==> Truthy(a) && Truthy(b)
    ensures r == a || r == b
    ensures !Truthy(a) ==> r == a
    ensures Truthy(a) ==> r == b
  {
    if Truthy(a) then b else a
  }
}
