/**
 * JSON-shaped values as they arrive in request bodies and as they sit in
 * MongoDB documents, with the Python semantics the handlers in app.py rely
 * on: `dict.get` (a missing key reads as `None`), truthiness and `or`.
 */
module JsonValues {

  /** A Python value decoded from JSON or read from a BSON document. Python
      ints and floats are both `Num`; `None` is `Null`. */
  datatype Value =
    | Null
    | Bool(b: bool)
    | Num(x: real)
    | Str(s: string)
    | Arr(items: seq<Value>)
    | Obj(fields: map<string, Value>)

  /** A stored document or a decoded JSON object: field name to value. */
  type Document = map<string, Value>

  /** `d.get(key)`: the stored value, or `None` when the key is missing. */
  function Get(d: Document, key: string): Value
  {
    if key in d then d[key] else Null
  }

  /** Python truthiness: `None`, `False`, zero and empty containers are false. */
  predicate Truthy(v: Value)
  {
    match v
    case Null => false
    case Bool(b) => b
    case Num(x) => x != 0.0
    case Str(s) => |s| > 0
    case Arr(items) => |items| > 0
    case Obj(fields) => |fields| > 0
  }

  /** Python `a or b`: `a` when it is truthy, otherwise `b` as it is. */
  function Or(a: Value, b: Value): (r: Value)
    ensures r == a || r == b
    ensures Truthy(a) ==> r == a
    ensures Truthy(r) <==> Truthy(a) || Truthy(b)
    ensures !Truthy(a) ==> r == b
  {
    if Truthy(a) then a else b
  }

  /** `isinstance(v, str) and v` : a non-empty string. */
  predicate NonEmptyString(v: Value)
  {
    v.Str? && |v.s| > 0
  }
}
