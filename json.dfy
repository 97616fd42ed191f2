/** Values produced by Python's `json.load`, as baka.py's configuration holds them. */
module Json {
  import opened Wrappers

  /** A JSON value. An object keeps its members in document order, which is
      the order in which Python iterates the resulting `dict`. */
  datatype Json =
    | JNull
    | JBool(b: bool)
    | JInt(i: int)
    | JStr(s: string)
    | JArr(items: seq<Json>)
    | JObj(members: seq<(string, Json)>)

  /** Python's truth value of the loaded value (`bool(v)`). */
  predicate Truthy(j: Json) {
    match j
    case JNull => false
    case JBool(b) => b
    case JInt(i) => i != 0
    case JStr(s) => s != ""
    case JArr(xs) => xs != []
    case JObj(ms) => ms != []
  }

  predicate HasKey(members: seq<(string, Json)>, key: string) {
    exists i :: 0 <= i < |members| && members[i].0 == key
  }

  /** `d[key]` when `key in d`, for a dict given by its members. */
  function Get(members: seq<(string, Json)>, key: string): (r: Option<Json>)
    ensures r.Some? <==> HasKey(members, key)
    ensures r.Some? ==> (key, r.value) in members
    decreases |members|
  {
    if members == [] then None
    else if members[0].0 == key then Some(members[0].1)
    else Get(members[1..], key)
  }

  /** Python's `type(v).__name__` for a loaded value. */
  function TypeName(j: Json): string {
    match j
    case JNull => "NoneType"
    case JBool(_) => "bool"
    case JInt(_) => "int"
    case JStr(_) => "str"
    case JArr(_) => "list"
    case JObj(_) => "dict"
  }

  /** A list of strings, such as a command. */
  function AsStrings(j: Json): Option<seq<string>> {
    match j
    case JArr(xs) =>
      if forall i :: 0 <= i < |xs| ==> xs[i].JStr?
      then Some(seq(|xs|, i requires 0 <= i < |xs| => xs[i].s))
      else None
    case _ => None
  }

  /** A list of commands. */
  function AsCommands(j: Json): Option<seq<seq<string>>> {
    match j
    case JArr(xs) =>
      if forall i :: 0 <= i < |xs| ==> AsStrings(xs[i]).Some?
      then Some(seq(|xs|, i requires 0 <= i < |xs| => AsStrings(xs[i]).value))
      else None
    case _ => None
  }

  /** A dict whose values are strings. */
  function AsStringMap(j: Json): Option<seq<(string, string)>> {
    match j
    case JObj(ms) =>
      if forall i :: 0 <= i < |ms| ==> ms[i].1.JStr?
      then Some(seq(|ms|, i requires 0 <= i < |ms| => (ms[i].0, ms[i].1.s)))
      else None
    case _ => None
  }
}
