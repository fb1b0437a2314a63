/** Decoded JSON values as the poller sees them after `response.json()`,
    together with the two pieces of Python behaviour the core relies on:
    `dict.get` (absent key reads as `None`) and the built-in type names that
    appear in Python's error messages. */
module JsonValue {

  /** A decoded JSON value. Object keys are always strings in JSON. */
  datatype Json =
    | JNull
    | JBool(b: bool)
    | JInt(i: int)
    | JReal(r: real)
    | JStr(s: string)
    | JList(items: seq<Json>)
    | JDict(entries: map<string, Json>)

  /** Python's dict lookup with a default: the value stored under `key`, or
      `None` when the key is absent. */
  function Get(entries: map<string, Json>, key: string): (v: Json)
    ensures key in entries ==> v == entries[key]
    ensures key !in entries ==> v == JNull
  {
    if key in entries then entries[key] else JNull
  }

  /** The name CPython gives the type of a decoded value, as it appears in
      its error messages. */
  function TypeName(v: Json): (name: string)
    ensures name == "dict" <==> v.JDict?
    ensures name == "list" <==> v.JList?
    ensures name == "str" <==> v.JStr?
  {
    match v
    case JNull => "NoneType"
    case JBool(_) => "bool"
    case JInt(_) => "int"
    case JReal(_) => "float"
    case JStr(_) => "str"
    case JList(_) => "list"
    case JDict(_) => "dict"
  }

  /** Whether Python can hash the value, i.e. use it with `in` on a dict.
      Lists and dicts are the only unhashable decoded values. */
  predicate Hashable(v: Json)
  {
    !v.JList? && !v.JDict?
  }
}
