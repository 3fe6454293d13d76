/** Decoded JSON documents as Python holds them after json.load, and the
    Python truth value of each. */
module Json {
  import opened Text

  datatype Option<+T> = None | Some(value: T)

  /** A decoded JSON value. A float keeps the literal it was read from; its
      numeric value is not modelled. Objects are keyed by string. */
  datatype Json =
    | JNull
    | JBool(b: bool)
    | JInt(i: int)
    | JFloat(literal: string)
    | JString(s: string)
    | JArray(items: seq<Json>)
    | JObject(fields: map<string, Json>)

  /** The part of a float literal before its exponent. */
  function Mantissa(literal: string): (m: string)
    ensures |m| <= |literal|
  {
    if literal == [] || literal[0] == 'e' || literal[0] == 'E' then []
    else [literal[0]] + Mantissa(literal[1..])
  }

  /** A float literal is taken to denote zero when its mantissa has digits and
      all are '0' ("inf" and "nan" are not zero). This reads the literal's
      digits, not its value once rounded to a double: a literal that underflows
      to 0.0, such as 1e-400, counts as nonzero here. */
  predicate FloatIsZero(literal: string) {
    var m := Mantissa(literal);
    '0' in m && forall i :: 0 <= i < |m| && IsDigit(m[i]) ==> m[i] == '0'
  }

  /** Python's bool(value) for a decoded document. */
  predicate Truthy(j: Json) {
    match j
    case JNull => false
    case JBool(b) => b
    case JInt(i) => i != 0
    case JFloat(lit) => !FloatIsZero(lit)
    case JString(s) => s != ""
    case JArray(items) => items != []
    case JObject(fields) => fields != map[]
  }

  /** dict.get(key, default). */
  function GetOr(fields: map<string, Json>, key: string, default: Json): Json {
    if key in fields then fields[key] else default
  }

  /** A list of strings as a JSON array. */
  function Strings(ids: seq<string>): (js: seq<Json>)
    ensures |js| == |ids|
    ensures forall i :: 0 <= i < |ids| ==> js[i] == JString(ids[i])
  {
    if ids == [] then [] else [JString(ids[0])] + Strings(ids[1..])
  }

  /** What `for x in value` visits after `len(value)` succeeded: the items of a
      list, the one-character strings of a string. None where len() raises
      (null, booleans, numbers); objects are not iterated in this model. */
  function Iterate(j: Json): (items: Option<seq<Json>>)
    ensures j.JArray? ==> items == Some(j.items)
    ensures items.Some? ==> j.JArray? || j.JString?
  {
    match j
    case JArray(xs) => Some(xs)
    case JString(s) => Some(seq(|s|, i requires 0 <= i < |s| => JString([s[i]])))
    case _ => None
  }
}
