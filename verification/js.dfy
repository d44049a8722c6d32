/** The few JavaScript values and operators the hooks depend on. Numbers are
    integers here: floating point and NaN are not part of this model. */
module Js {

  datatype JsValue =
    | Undefined
    | Null
    | Bool(b: bool)
    | Number(n: int)
    | Text(s: string)

  /** `!!v`: undefined, null, false, 0 and "" are falsy, everything else is truthy. */
  predicate Truthy(v: JsValue) {
    match v
    case Undefined => false
    case Null => false
    case Bool(b) => b
    case Number(n) => n != 0
    case Text(s) => s != ""
  }

  /** The values that `??` replaces. */
  predicate Nullish(v: JsValue) {
    v.Undefined? || v.Null?
  }

  /** `v ?? fallback` */
  function Coalesce(v: JsValue, fallback: JsValue): JsValue {
    if Nullish(v) then fallback else v
  }

  /** `v || fallback` */
  function Or(v: JsValue, fallback: JsValue): JsValue {
    if Truthy(v) then v else fallback
  }

  /** A property read `obj.key` on a plain object: a missing key reads as undefined. */
  function Get(obj: map<string, JsValue>, key: string): JsValue {
    if key in obj then obj[key] else Undefined
  }
}
