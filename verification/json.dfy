/** JSON values as Python's `json` module hands them to the proxy, and the
    few Python operations the proxy applies to them: truth testing, `str()`,
    and the `in` operator. */
module JsonValues {
  import opened Options

  /** A decoded JSON value. Numbers are integers; objects map keys to values. */
  datatype Json =
    | JNull
    | JBool(b: bool)
    | JNum(n: int)
    | JStr(s: string)
    | JArr(items: seq<Json>)
    | JObj(fields: map<string, Json>)

  /** What decoding a text gives: a value; the `JSONDecodeError` that
      malformed text raises; or another exception (a `RecursionError` on very
      deep nesting, a `ValueError` on an over-long integer literal). */
  datatype Decoded =
    | Parsed(value: Json)
    | Malformed
    | Failed

  /** Python truth testing: `None`, `False`, zero and empty strings, lists and
      dicts are false, everything else true. */
  predicate Truthy(v: Json) {
    match v
    case JNull => false
    case JBool(b) => b
    case JNum(n) => n != 0
    case JStr(s) => s != ""
    case JArr(items) => |items| > 0
    case JObj(fields) => |fields| > 0
  }

  /** Python `str(v)`: a string is itself; the rendering of every other value
      (Python's repr of lists, dicts, numbers, `True`, `None`) is `show`. */
  function Str(v: Json, show: Json -> string): (r: string)
    ensures v.JStr? ==> r == v.s
  {
    if v.JStr? then v.s else show(v)
  }

  /** `key` occurs as a contiguous piece of `s`. */
  predicate IsSubstring(key: string, s: string) {
    key <= s || (|s| > 0 && IsSubstring(key, s[1..]))
  }

  /** Python `key in v` for a string key: a dict tests its keys, a list its
      elements, a string its substrings; on `None`, booleans and numbers the
      operator raises `TypeError`, modelled as None. */
  function Contains(v: Json, key: string): (r: Option<bool>)
    ensures r.Some? <==> v.JObj? || v.JArr? || v.JStr?
    ensures v.JObj? ==> r == Some(key in v.fields)
  {
    match v
    case JObj(fields) => Some(key in fields)
    case JArr(items) => Some(JStr(key) in items)
    case JStr(s) => Some(IsSubstring(key, s))
    case _ => None
  }
}
