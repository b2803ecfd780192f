/** JSON-shaped Python values (`None`, `bool`, `int`, `str`, `list`, `dict`) and the Python
    notions the source applies to them: truthiness, `dict.get` and `str()`. */
module JsonValue {
  import opened Wrappers
  import Text

  datatype Json =
    | JNull
    | JBool(b: bool)
    | JInt(i: int)
    | JStr(s: string)
    | JArr(items: seq<Json>)
    | JObj(fields: map<string, Json>)

  /** A dictionary with string keys. */
  type Dict = map<string, Json>

  /** Python truthiness: `None`, `False`, `0`, `""`, `[]` and `{}` are false. */
  predicate Truthy(j: Json) {
    match j
    case JNull => false
    case JBool(b) => b
    case JInt(i) => i != 0
    case JStr(s) => s != ""
    case JArr(a) => a != []
    case JObj(m) => m != map[]
  }

  /** `d.get(key, default)`. */
  function Get(d: Dict, key: string, default: Json): (r: Json)
    ensures key in d ==> r == d[key]
    ensures key !in d ==> r == default
  {
    if key in d then d[key] else default
  }

  /** `d.get(key)`: a missing key reads as `None`. */
  function Lookup(d: Dict, key: string): (r: Json)
    ensures key !in d ==> r == JNull
  {
    Get(d, key, JNull)
  }

  /** Values Python can hash, and so use as a dictionary key or in an `in` test on a dict. */
  predicate Hashable(j: Json) {
    !j.JArr? && !j.JObj?
  }

  /** Python's name for the type of the value, as it appears in error messages. */
  function TypeName(j: Json): string {
    match j
    case JNull => "NoneType"
    case JBool(_) => "bool"
    case JInt(_) => "int"
    case JStr(_) => "str"
    case JArr(_) => "list"
    case JObj(_) => "dict"
  }

  /** `str(j)` for the scalar values whose rendering the model needs. */
  function ScalarToString(j: Json): (r: string)
    requires Hashable(j)
    ensures j.JStr? ==> r == j.s
  {
    match j
    case JNull => "None"
    case JBool(b) => if b then "True" else "False"
    case JInt(i) => Text.IntToString(i)
    case JStr(s) => s
  }

  /** `json.loads` parses every text `json.dumps` writes back to the value written. */
  ghost predicate RoundTrips(dumps: Json -> string, loads: string -> Option<Json>) {
    forall j :: loads(dumps(j)) == Some(j)
  }

  /** `json.dumps` never writes the empty text. */
  ghost predicate NeverEmpty(dumps: Json -> string) {
    forall j :: dumps(j) != ""
  }
}
