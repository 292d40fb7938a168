/**
 The values `json.loads` can return, and the two Python operations the
 scripts apply to them without checking their type first: truth testing
 (`if x`) and membership (`k in x`).
 */
module JsonValue {
  import opened Wrappers
  import opened Text

  /**
   A decoded JSON document. Numbers keep only their value; Python's split
   into `int` and `float` makes no difference to the operations modelled.
   */
  datatype Json =
    | Null
    | Bool(b: bool)
    | Num(n: real)
    | Str(s: string)
    | Arr(items: seq<Json>)
    | Obj(fields: map<string, Json>)

  /** Python truth value: `None`, `False`, zero and empty containers are false. */
  predicate Truthy(j: Json) {
    match j
    case Null => false
    case Bool(b) => b
    case Num(n) => n != 0.0
    case Str(s) => |s| > 0
    case Arr(xs) => |xs| > 0
    case Obj(m) => |m| > 0
  }

  /** The object `{"k1": v1, ...}` whose every key holds a string. */
  predicate IsStringObject(j: Json, keys: set<string>) {
    j.Obj? && forall k :: k in keys ==> k in j.fields && j.fields[k].Str?
  }

  /**
   `key in j` for a string `key`: key membership for a dict, element
   equality for a list, substring search for a string. `None` stands for
   the `TypeError` raised for `None`, booleans and numbers.
   */
  function In(key: string, j: Json): (r: Option<bool>)
    ensures r.None? <==> j.Null? || j.Bool? || j.Num?
    ensures j.Obj? ==> r == Some(key in j.fields)
    ensures j.Arr? ==> r == Some(Str(key) in j.items)
    ensures j.Str? ==> r == Some(Contains(j.s, key))
  {
    match j
    case Obj(m) => Some(key in m)
    case Arr(xs) => Some(Str(key) in xs)
    case Str(s) => Some(Contains(s, key))
    case _ => None
  }

  /** An object holding a key is never false, so `x and k in x` reduces to `k in x`. */
  lemma ObjectWithKeyIsTruthy(j: Json, key: string)
    requires j.Obj? && key in j.fields
    ensures Truthy(j) && In(key, j) == Some(true)
  {
    assert key in j.fields.Keys;
  }
}
