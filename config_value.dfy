/** The parsed configuration file: the hash that YAML loading hands to the node binary. */
module ConfigValue {
  import opened Wrappers

  /** One object of the parsed YAML document. */
  datatype Value =
    | VStr(s: string)
    | VInt(i: int)                        // Ruby Integer: unbounded
    | VBool(b: bool)
    | VList(items: seq<Value>)
    | VMap(entries: map<string, Value>)
    | VNull                               // an explicit `~` or an empty value
    | VOther                              // floats, symbols, dates and the like

  /** The top-level hash: string keys to objects. */
  type Config = map<string, Value>

  /** `hash[key]` read through `nil?`: a missing key and an explicit null are the same. */
  function Lookup(m: map<string, Value>, key: string): (r: Option<Value>)
    ensures r.None? <==> key !in m || m[key] == VNull
    ensures r.Some? ==> key in m && r.value == m[key]
  {
    if key in m && m[key] != VNull then Some(m[key]) else None
  }
}
