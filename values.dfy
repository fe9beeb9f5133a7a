/** The nested mapping / sequence / scalar values that the source keeps in
    Python dicts and writes out as JSON or YAML (task records, configuration,
    project records). Disk encoding is not modelled: a value written and read
    back is the same value. */
module Values {

  datatype Value =
    | VNone
    | VBool(b: bool)
    | VInt(i: int)
    | VReal(r: real)
    | VStr(s: string)
    | VList(items: seq<Value>)
    | VDict(entries: map<string, Value>)

  /** Python's truth value of a JSON/YAML value (`if value:`): None is
      false, and a container is true exactly when it is non-empty. */
  predicate Truthy(v: Value)
    ensures Truthy(v) ==> v != VNone
    ensures v.VDict? ==> (Truthy(v) <==> |v.entries| > 0)
    ensures v.VList? ==> (Truthy(v) <==> |v.items| > 0)
  {
    match v
    case VNone => false
    case VBool(b) => b
    case VInt(i) => i != 0
    case VReal(r) => r != 0.0
    case VStr(s) => s != ""
    case VList(items) => items != []
    case VDict(entries) => entries != map[]
  }

  /** A value other than a list that `for x in v` goes over without visiting
      anything: an empty string or dict. A non-empty string hands the loop
      its characters and a non-empty dict its keys, all strings; any other
      value is not iterable and raises TypeError. */
  predicate EmptyStringOrDict(v: Value)
  {
    v == VStr("") || v == VDict(map[])
  }
}
