/** JSON values as PHP holds them after `json_decode($text, true)`, and the handful of PHP
    array and conversion rules the client relies on: `??` lookups, `empty()`, `[0]`,
    coercion into `string`-typed slots and array keys. */
module Json {
  import opened Wrappers
  import Decimal

  /** A decoded JSON value. Objects and lists both become PHP arrays; floats are not modelled. */
  datatype Json =
    | JNull
    | JBool(b: bool)
    | JInt(i: int)
    | JStr(s: string)
    | JArr(items: seq<Json>)
    | JObj(fields: map<string, Json>)

  /** `is_array($j)`: what a decoded JSON object or list is. */
  predicate IsArray(j: Json) {
    j.JArr? || j.JObj?
  }

  /** The empty PHP array `[]`; PHP does not tell an empty list from an empty object. */
  const EmptyArray: Json := JObj(map[])

  /** One step of `$j['key'] ?? ...`: only an array has keys, and a key bound to `null` counts as
      unset. Every key this model looks up is non-numeric, so a list never has one. */
  function Get(j: Option<Json>, key: string): (r: Option<Json>)
    ensures r.Some? ==> r.value != JNull
  {
    match j
    case Some(JObj(fields)) =>
      if key in fields && fields[key] != JNull then Some(fields[key]) else None
    case _ => None
  }

  /** `$j[0]`, read as `??` reads it (unset or `null` is `None`): the first element of a list,
      the key `0` of an object (PHP turns the decoded key "0" into the integer 0), or the first
      character of a non-empty string. */
  function At0(j: Option<Json>): (r: Option<Json>)
    ensures r.Some? ==> r.value != JNull
  {
    match j
    case Some(JArr(items)) => if |items| > 0 && items[0] != JNull then Some(items[0]) else None
    case Some(JObj(fields)) => if "0" in fields && fields["0"] != JNull then Some(fields["0"]) else None
    case Some(JStr(s)) => if |s| > 0 then Some(JStr([s[0]])) else None
    case _ => None
  }

  /** A PHP string is truthy unless it is "" or "0". */
  predicate TruthyString(s: string) {
    s != "" && s != "0"
  }

  /** `!empty($j)` for a set value. */
  predicate Truthy(j: Json) {
    match j
    case JNull => false
    case JBool(b) => b
    case JInt(i) => i != 0
    case JStr(s) => TruthyString(s)
    case JArr(items) => |items| > 0
    case JObj(fields) => |fields| > 0
  }

  /** The string PHP stores when `j` goes into a `string`-typed property or parameter without
      strict types: scalars are converted, an array or `null` raises a TypeError (`None`). */
  function CoerceToString(j: Json): (r: Option<string>)
    ensures r.Some? <==> (j.JStr? || j.JInt? || j.JBool?)
    ensures j.JStr? ==> r == Some(j.s)
  {
    match j
    case JStr(s) => Some(s)
    case JInt(i) => Some(Decimal.IntToString(i))
    case JBool(b) => Some(if b then "1" else "")
    case _ => None
  }

  /** What `"{$j}"` interpolates: like the coercion, except that an array reads "Array" (with a
      warning) and `null` reads "". */
  function Interpolate(j: Json): string {
    match j
    case JNull => ""
    case JArr(_) => "Array"
    case JObj(_) => "Array"
    case _ => CoerceToString(j).GetOr("")
  }

  /** The key `$map[$j]` looks up, spelled as a string: booleans become 0 and 1, integers their
      decimal form (the same key PHP derives from the numeric string), and an array is an illegal
      offset (`None`). */
  function ArrayKey(j: Json): (r: Option<string>)
    ensures r.Some? <==> !IsArray(j)
    ensures j.JStr? ==> r == Some(j.s)
  {
    match j
    case JNull => Some("")
    case JBool(b) => Some(if b then "1" else "0")
    case JInt(i) => Some(Decimal.IntToString(i))
    case JStr(s) => Some(s)
    case _ => None
  }
}
