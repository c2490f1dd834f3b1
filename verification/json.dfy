/**
  JSON values as JavaScript holds them, together with the few JavaScript
  semantics the library relies on: truthiness (`x || {}`, `!cache`),
  property-key coercion (`store[id]`) and property reads (`payload.data.id`).
 */
module Json {
  import opened Wrappers
  import opened Props
  import opened Decimal

  /**
    A JSON value. Numbers are integers; objects keep their properties in
    insertion order.
   */
  datatype Json =
    | JNull
    | JBool(b: bool)
    | JNumber(n: int)
    | JString(s: string)
    | JArray(elems: seq<Json>)
    | JObject(members: seq<Prop<Json>>)

  /** The empty object `{}`. */
  const EmptyObject: Json := JObject([])

  /** Every object, at every depth, has distinct keys, as a JavaScript object must. */
  predicate WellFormed(j: Json) {
    match j
    case JArray(xs) => forall i | 0 <= i < |xs| :: WellFormed(xs[i])
    case JObject(ms) => DistinctKeys(ms) && forall i | 0 <= i < |ms| :: WellFormed(ms[i].value)
    case _ => true
  }

  /** A JavaScript value as the library handles it: `undefined` or a JSON value. */
  datatype JsValue = Undefined | Defined(value: Json)

  /** What a JavaScript operation of the library can throw. */
  datatype JsError =
    | TypeError
    | SyntaxError
    | Error(message: string)
      /**
        A well-formed JSON number or escape this model does not represent (a
        fraction, an exponent, a surrogate escape); the text after it is not
        examined.
       */
    | Unmodelled

  /** ECMAScript ToBoolean. */
  predicate Truthy(v: JsValue) {
    match v
    case Undefined => false
    case Defined(JNull) => false
    case Defined(JBool(b)) => b
    case Defined(JNumber(n)) => n != 0
    case Defined(JString(s)) => |s| > 0
    case Defined(_) => true
  }

  /** ECMAScript ToString of a JSON value, as `String(x)` computes it for numbers below 10^21 in magnitude. */
  function ToText(j: Json): string {
    match j
    case JNull => "null"
    case JBool(b) => if b then "true" else "false"
    case JNumber(n) => IntToDecimal(n)
    case JString(s) => s
    case JArray(xs) => JoinElements(xs)
    case JObject(_) => "[object Object]"
  }

  /** `Array.prototype.join(",")`: `null` elements print as the empty string. */
  function JoinElements(xs: seq<Json>): string {
    if |xs| == 0 then ""
    else
      var first := if xs[0].JNull? then "" else ToText(xs[0]);
      if |xs| == 1 then first else first + "," + JoinElements(xs[1..])
  }

  /** The property key `o[v]` uses: ECMAScript ToPropertyKey. */
  function ToPropertyKey(v: JsValue): string {
    match v
    case Undefined => "undefined"
    case Defined(j) => ToText(j)
  }

  /**
    `base[name]` for an own data property: `undefined` and `null` bases
    throw, objects yield the property or `undefined`, and the other
    primitives and arrays have no property of the names the library reads.
   */
  function GetProperty(base: JsValue, name: string): (r: Result<JsValue, JsError>)
    ensures r.Failure? <==> base.Undefined? || base == Defined(JNull)
    ensures r.Failure? ==> r.error == TypeError
    ensures base.Defined? && base.value.JObject? && HasKey(base.value.members, name) ==>
              r == Success(Defined(Lookup(base.value.members, name).value))
    ensures r.Success? && r.value.Defined? ==>
              base.value.JObject? && Lookup(base.value.members, name) == Some(r.value.value)
  {
    match base
    case Undefined => Failure(TypeError)
    case Defined(JNull) => Failure(TypeError)
    case Defined(JObject(ms)) =>
      (match Lookup(ms, name)
       case Some(v) => Success(Defined(v))
       case None => Success(Undefined))
    case Defined(_) => Success(Undefined)
  }

  /** Distinct numeric ids never share a property key. */
  lemma NumberKeysInjective(m: int, n: int)
    ensures ToPropertyKey(Defined(JNumber(m))) == ToPropertyKey(Defined(JNumber(n))) ==> m == n
  {
    IntToDecimalInjective(m, n);
  }

  /**
    A numeric id and the string of its digits name the same property, so
    `set(1, x)` is read back by `get('1')`.
   */
  lemma NumberAndNumeralAlias(n: int)
    ensures ToPropertyKey(Defined(JNumber(n))) == ToPropertyKey(Defined(JString(IntToDecimal(n))))
  {
  }
}
