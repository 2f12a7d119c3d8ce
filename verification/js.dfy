/**
 * The JavaScript values that cross the provider bridge and the RPC schemas.
 * Only the distinctions the modelled code observes are kept: which values are
 * truthy (plain `if (x)`), which are nullish (`??`), and the shapes io-ts
 * inspects (string, boolean, array, plain object).
 */
module Js {

  /** A JavaScript value. Numbers other than NaN are modelled as reals (both zeros
      are `Num(0.0)`); every object that is not an array, including an ethers
      BigNumber and a Uint8Array, is an `Obj` with its own enumerable fields. */
  datatype JsValue =
    | Undef
    | Null
    | Bool(b: bool)
    | Num(x: real)
    | NaN
    | Str(s: string)
    | Arr(items: seq<JsValue>)
    | Obj(fields: map<string, JsValue>)

  /** JavaScript truthiness: `undefined`, `null`, `false`, `0`, `NaN` and `''`
      are falsy; every object, empty or not, is truthy. */
  predicate Truthy(v: JsValue) {
    match v
    case Undef => false
    case Null => false
    case Bool(b) => b
    case Num(x) => x != 0.0
    case NaN => false
    case Str(s) => s != ""
    case Arr(_) => true
    case Obj(_) => true
  }

  /** The values on which `a ?? b` falls through to `b`. */
  predicate Nullish(v: JsValue) {
    v.Undef? || v.Null?
  }

  /** Property read `o.key` on an object: a missing key reads as `undefined`. */
  function Member(fields: map<string, JsValue>, key: string): JsValue {
    if key in fields then fields[key] else Undef
  }

  /** `??` is strictly more permissive than `||`: every nullish value is falsy,
      but `0`, `NaN`, `''` and `false` are falsy without being nullish. */
  lemma NullishIsStrictlyFalsy(v: JsValue)
    ensures Nullish(v) ==> !Truthy(v)
    ensures v in {Num(0.0), NaN, Str(""), Bool(false)} ==> !Truthy(v) && !Nullish(v)
  {
  }
}
