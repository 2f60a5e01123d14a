/** JSON values as `JSON.parse` produces them, and the few pieces of
    JavaScript value semantics the adapter relies on: property access on a
    parsed value, `[0]` indexing, truthiness and `Number.isInteger`. */
module Json {
  import opened Wrappers

  /** A parsed JSON value. Numbers are finite reals; an object maps each key
      to its value (the parser keeps the last of duplicate keys, and key
      order never matters to the adapter). */
  datatype Json =
    | JNull
    | JBool(b: bool)
    | JNumber(n: real)
    | JString(s: string)
    | JArray(items: seq<Json>)
    | JObject(fields: map<string, Json>)

  /** A JavaScript value reachable from a parsed JSON value: the value itself
      or `undefined` (a property that does not exist). */
  datatype JsValue = Undefined | Defined(value: Json)

  /** The `TypeError` JavaScript raises when a property is read from
      `undefined` or `null`. */
  datatype TypeError = CannotReadProperty(key: string)

  /** `Number.isInteger` on a finite number. */
  predicate IsInteger(x: real) {
    x.Floor as real == x
  }

  /** JavaScript truthiness: `undefined`, `null`, `false`, `0` and `""` are
      falsy, everything else (including every array and object) is truthy. */
  predicate Truthy(v: JsValue) {
    match v
    case Undefined => false
    case Defined(JNull) => false
    case Defined(JBool(b)) => b
    case Defined(JNumber(x)) => x != 0.0
    case Defined(JString(s)) => s != ""
    case Defined(JArray(_)) => true
    case Defined(JObject(_)) => true
  }

  /** `base.name` for a property name that is not an array index and that no
      built-in prototype defines (`choices`, `text`, `api_key`, ...): only an
      object's own key can supply it. Reading from `undefined` or `null`
      throws. */
  function Field(base: JsValue, name: string): (r: Result<JsValue, TypeError>)
    ensures r.Failure? <==> base == Undefined || base == Defined(JNull)
    ensures r == Success(Undefined) <==>
              base != Undefined && base != Defined(JNull) &&
              !(base.value.JObject? && name in base.value.fields)
    ensures base.Defined? && base.value.JObject? && name in base.value.fields ==>
              r == Success(Defined(base.value.fields[name]))
  {
    match base
    case Undefined => Failure(CannotReadProperty(name))
    case Defined(JNull) => Failure(CannotReadProperty(name))
    case Defined(JObject(m)) => Success(if name in m then Defined(m[name]) else Undefined)
    case Defined(_) => Success(Undefined)
  }

  /** `base[0]`: the first element of an array, the first character of a
      string (as a one-character string), or an object's own key "0".
      Numbers and booleans have no such property; `undefined` and `null`
      throw. */
  function Index0(base: JsValue): (r: Result<JsValue, TypeError>)
    ensures r.Failure? <==> base == Undefined || base == Defined(JNull)
    ensures base.Defined? && base.value.JArray? ==>
              r == Success(if base.value.items == [] then Undefined else Defined(base.value.items[0]))
  {
    match base
    case Undefined => Failure(CannotReadProperty("0"))
    case Defined(JNull) => Failure(CannotReadProperty("0"))
    case Defined(JArray(a)) => Success(if |a| == 0 then Undefined else Defined(a[0]))
    case Defined(JString(s)) => Success(if |s| == 0 then Undefined else Defined(JString([s[0]])))
    case Defined(JObject(m)) => Success(if "0" in m then Defined(m["0"]) else Undefined)
    case Defined(_) => Success(Undefined)
  }
}
