/**
 * The JavaScript values that reach the handlers: request bodies, gateway
 * replies and the records of the transaction table are all parsed JSON, so a
 * value is one of JSON's kinds, or `undefined` for a field that is absent.
 * Numbers are idealised as finite reals: there is no NaN, no Infinity (which
 * an overflowing literal parses to), and -0 is the same as 0. Strings are
 * sequences of Unicode scalar values, so an unpaired surrogate cannot occur.
 */
module JsValues {

  datatype JsValue =
    | Undefined
    | Null
    | Bool(b: bool)
    | Num(n: real)
    | Str(s: string)
    | Arr(items: seq<JsValue>)
    | Obj(fields: map<string, JsValue>)

  /** `null` and `undefined`: reading a property of one throws a TypeError. */
  predicate Nullish(v: JsValue) {
    v.Undefined? || v.Null?
  }

  /** JavaScript truthiness, what `if (x)` and `!x` test. */
  predicate Truthy(v: JsValue)
    ensures Truthy(v) ==> !Nullish(v)
  {
    match v
    case Undefined => false
    case Null => false
    case Bool(b) => b
    case Num(n) => n != 0.0
    case Str(s) => s != ""
    case Arr(_) => true
    case Obj(_) => true
  }

  /**
   * `v.key` for a value that is not nullish. Only data keys are read
   * ("payment", "payment_number", "expired_at", "transaction", "status"),
   * and no built-in prototype defines those, so a primitive or an array
   * yields `undefined` and an object yields its own field or `undefined`.
   */
  function Field(v: JsValue, key: string): (r: JsValue)
    requires !Nullish(v)
    ensures r != Undefined ==> v.Obj? && key in v.fields && v.fields[key] == r
    ensures v.Obj? && key in v.fields ==> r == v.fields[key]
  {
    if v.Obj? && key in v.fields then v.fields[key] else Undefined
  }

  /** The values `!x` accepts are exactly the five falsy values parsed JSON can produce (-0 being 0 here). */
  lemma FalsyValues(v: JsValue)
    ensures !Truthy(v) <==> v in {Undefined, Null, Bool(false), Num(0.0), Str("")}
  {
  }
}
