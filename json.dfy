/** Request bodies as parsed JSON values. A field that is absent is a key
    missing from its object. */
module JsonValues {

  datatype Json =
    | JNull
    | JBool(b: bool)
    | JNum(n: real)
    | JStr(s: string)
    | JArr(items: seq<Json>)
    | JObj(fields: map<string, Json>)

  /** JavaScript truthiness of a JSON value: false, 0, "" and null are falsy;
      every array and object is truthy. */
  predicate TruthyJson(v: Json) {
    match v
    case JNull => false
    case JBool(b) => b
    case JNum(n) => n != 0.0
    case JStr(s) => s != ""
    case JArr(_) => true
    case JObj(_) => true
  }

  /** Number.MAX_SAFE_INTEGER, 2^53 - 1. */
  const MaxSafeInteger: real := 9007199254740991.0

  /** A number Joi's `number()` accepts: one within the safe range
      -(2^53 - 1) .. 2^53 - 1 (outside it Joi reports `number.unsafe`). */
  predicate SafeNumber(v: Json) {
    v.JNum? && -MaxSafeInteger <= v.n <= MaxSafeInteger
  }

  /** A present number at least 0 (Joi `number().min(0)`). */
  predicate NonNegativeNumber(v: Json) {
    SafeNumber(v) && v.n >= 0.0
  }

  /** An optional field: absent, or present and satisfying `ok`. */
  predicate OptionalField(obj: map<string, Json>, key: string, ok: Json -> bool) {
    key in obj ==> ok(obj[key])
  }

  /** The object restricted to the given keys: unknown keys stripped. */
  function Restrict(obj: map<string, Json>, keys: set<string>): (r: map<string, Json>)
    ensures r.Keys == obj.Keys * keys
    ensures forall key :: key in r ==> r[key] == obj[key]
  {
    map key | key in obj.Keys * keys :: obj[key]
  }
}
