/**
 * JSON values as Python's `json` module decodes them, and the few Python operations the
 * bot applies to them: truthiness, `dict.get`, `str()` and iteration with `for`.
 */
module PyJson {
  import opened Wrappers

  /**
   * A decoded JSON value. An object is a dict: an association list in insertion order,
   * which is the order Python iterates it in. A decoded dict has distinct keys; lookups
   * here take the first binding, which is then the only one.
   */
  datatype Json =
    | Null
    | Bool(b: bool)
    | Int(i: int)
    | Float(f: real)
    | Str(s: string)
    | Array(items: seq<Json>)
    | Object(fields: seq<(string, Json)>)

  /** Python's `bool(v)`: `None`, `False`, `0`, `0.0`, `""`, `[]` and `{}` are the falsy values. */
  predicate Truthy(v: Json) {
    match v
    case Null => false
    case Bool(b) => b
    case Int(i) => i != 0
    case Float(f) => f != 0.0
    case Str(s) => s != ""
    case Array(items) => items != []
    case Object(fields) => fields != []
  }

  /** `key in d` for a dict `d`. */
  predicate HasKey(fields: seq<(string, Json)>, key: string) {
    exists i :: 0 <= i < |fields| && fields[i].0 == key
  }

  /** `d.get(key)`: the value of the first binding of `key`, or `None`. */
  function Lookup(fields: seq<(string, Json)>, key: string): (r: Option<Json>)
    ensures r.Some? <==> HasKey(fields, key)
  {
    if fields == [] then None
    else if fields[0].0 == key then Some(fields[0].1)
    else Lookup(fields[1..], key)
  }

  /** `d.get(key)` finds the value of the first binding of `key`. */
  lemma {:induction false} LookupFindsFirst(fields: seq<(string, Json)>, key: string, k: nat)
    requires k < |fields| && fields[k].0 == key
    requires forall j :: 0 <= j < k ==> fields[j].0 != key
    ensures Lookup(fields, key) == Some(fields[k].1)
  {
    if k > 0 {
      LookupFindsFirst(fields[1..], key, k - 1);
    }
  }

  /**
   * Python's `str(v)`. `None`, booleans and strings are rendered here; numbers, lists and
   * dicts go through the parameter `str`, the interpreter's own `str()`, which the model
   * takes as given.
   */
  function PyStr(v: Json, str: Json -> string): (r: string)
    ensures v.Str? ==> r == v.s
  {
    match v
    case Null => "None"
    case Bool(b) => if b then "True" else "False"
    case Str(s) => s
    case _ => str(v)
  }

  /** What `for x in v` yields: the elements of a list, the keys of a dict, the characters of a string. */
  datatype Iteration = Elements(items: seq<Json>) | NotIterable

  /** `for x in v` over a decoded JSON value; `None`, booleans and numbers raise `TypeError`. */
  function Iterate(v: Json): (r: Iteration)
    ensures r.NotIterable? <==> (v.Null? || v.Bool? || v.Int? || v.Float?)
  {
    match v
    case Array(items) => Elements(items)
    case Object(fields) => Elements(seq(|fields|, i requires 0 <= i < |fields| => Str(fields[i].0)))
    case Str(s) => Elements(seq(|s|, i requires 0 <= i < |s| => Str([s[i]])))
    case _ => NotIterable
  }
}
