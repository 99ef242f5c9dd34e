/**
 * The JavaScript values the core inspects: enough of the language to state
 * `typeof` tests, truthiness and property lookup on plain objects.
 * Numbers are modelled as integers (plus NaN, the one non-integer number
 * whose truthiness differs).
 */
module JsValues {

  datatype JsValue =
    | Undefined
    | Null
    | Bool(b: bool)
    | Num(n: int)
    | NaN
    | Str(s: string)
    | ObjectId(hex: string)              // a BSON ObjectId, as the document store assigns it to `_id`
    | Obj(props: map<string, JsValue>)   // a plain object

  /** The `typeof` operator. */
  function TypeOf(v: JsValue): (t: string)
    ensures t == "string" <==> v.Str?
    ensures t == "number" <==> v.Num? || v.NaN?
    ensures t == "undefined" <==> v.Undefined?
  {
    match v
    case Undefined => "undefined"
    case Null => "object"
    case Bool(_) => "boolean"
    case Num(_) => "number"
    case NaN => "number"
    case Str(_) => "string"
    case ObjectId(_) => "object"
    case Obj(_) => "object"
  }

  /** The six falsy values, listed. */
  const Falsy: set<JsValue> := {Undefined, Null, Bool(false), Num(0), NaN, Str("")}

  /** JavaScript truthiness, decided per kind of value; it agrees with the list `Falsy`. */
  predicate Truthy(v: JsValue): (b: bool)
    ensures b <==> v !in Falsy
  {
    match v
    case Undefined => false
    case Null => false
    case Bool(b) => b
    case Num(n) => n != 0
    case NaN => false
    case Str(s) => s != ""
    case ObjectId(_) => true
    case Obj(_) => true
  }

  /** `obj.key` on a plain object: a missing property reads as `undefined`. */
  function Get(props: map<string, JsValue>, key: string): (v: JsValue)
    ensures key !in props ==> v == Undefined
    ensures key in props ==> v == props[key]
  {
    if key in props then props[key] else Undefined
  }
}
