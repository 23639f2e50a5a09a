/**
 * The JavaScript values the library stores in its state slices and hands back
 * from its hooks, with the two coercions it relies on: truthiness (`!!v`,
 * `if (v)`) and the nullish-coalescing operator `??`.
 */
module JsValue {

  /**
   * A JavaScript value as far as this library can observe it.  Numbers are
   * integers (plus `NaN`, the one non-integer falsy number); objects and
   * functions are opaque references; arrays are kept because `flatMap`
   * spreads them.
   */
  datatype Val =
    | Undefined
    | Null
    | Bool(b: bool)
    | Num(n: int)
    | NaN
    | Str(s: string)
    | Ref(id: nat)
    | Arr(items: seq<Val>)

  /** `v === null || v === undefined`: the values `??` replaces. */
  predicate Nullish(v: Val) {
    v.Undefined? || v.Null?
  }

  /** ECMAScript ToBoolean: false, 0, NaN, '', null and undefined are falsy. */
  predicate Truthy(v: Val) {
    match v
    case Undefined => false
    case Null => false
    case Bool(b) => b
    case Num(n) => n != 0
    case NaN => false
    case Str(s) => s != ""
    case Ref(_) => true
    case Arr(_) => true
  }

  /** `a ?? b`: keeps every non-nullish `a`, falsy ones included. */
  function Coalesce(a: Val, b: Val): (r: Val)
    ensures !Nullish(a) ==> r == a
    ensures Nullish(a) ==> r == b
  {
    if Nullish(a) then b else a
  }

  /** Nullish values are falsy, but falsy values need not be nullish. */
  lemma NullishIsFalsy(v: Val)
    ensures Nullish(v) ==> !Truthy(v)
    ensures !Truthy(v) && !Nullish(v) <==> v in {Bool(false), Num(0), NaN, Str("")}
  {
  }
}
