/** The Python values that `json.loads` and `response.json()` produce, with
    the pieces of Python semantics the pipeline relies on: truthiness,
    `dict.get`, indexing with `[0]` and iteration in a `for` loop. */
module PyJson {

  datatype Option<T> = None | Some(value: T)

  /** A decoded JSON value. An object keeps its members in insertion order,
      as a Python dict does; `json.loads` gives each key once. Numbers are
      kept as `real`; `NaN` and `Infinity`, which Python's decoder also
      accepts, are not represented. */
  datatype Json =
    | Null
    | Bool(b: bool)
    | Num(x: real)
    | Str(s: string)
    | Arr(items: seq<Json>)
    | Obj(fields: seq<(string, Json)>)

  /** Python's `bool(v)`: `None`, `False`, zero and empty containers are false. */
  predicate Truthy(v: Json) {
    match v
    case Null => false
    case Bool(b) => b
    case Num(x) => x != 0.0
    case Str(s) => s != []
    case Arr(items) => items != []
    case Obj(fields) => fields != []
  }

  predicate HasKey(fields: seq<(string, Json)>, key: string) {
    exists i | 0 <= i < |fields| :: fields[i].0 == key
  }

  /** Each key appears once, as in any Python dict. */
  predicate UniqueKeys(fields: seq<(string, Json)>) {
    forall i, j | 0 <= i < j < |fields| :: fields[i].0 != fields[j].0
  }

  /** `d.get(key)` on a dict: the member bound to `key`, if there is one. */
  function Get(fields: seq<(string, Json)>, key: string): (r: Option<Json>)
    ensures r.Some? <==> HasKey(fields, key)
    ensures r.Some? ==> (key, r.value) in fields
    ensures UniqueKeys(fields) ==> forall v :: (key, v) in fields ==> r == Some(v)
  {
    if fields == [] then None
    else if fields[0].0 == key then
      assert UniqueKeys(fields) ==> forall j | 0 < j < |fields| :: fields[j].0 != key;
      Some(fields[0].1)
    else
      var r := Get(fields[1..], key);
      assert forall v :: (key, v) in fields ==> (key, v) in fields[1..];
      assert HasKey(fields[1..], key) ==> HasKey(fields, key) by {
        if HasKey(fields[1..], key) {
          var i :| 0 <= i < |fields[1..]| && fields[1..][i].0 == key;
          assert fields[i + 1].0 == key;
        }
      }
      r
  }

  /** `d.get(key, default)`; a missing key gives `default`, a present one its value. */
  function GetOr(fields: seq<(string, Json)>, key: string, default: Json): Json {
    match Get(fields, key)
    case Some(v) => v
    case None => default
  }

  /** `v[0]` when it succeeds: the first element of a list, or the first
      character of a string as a one-character string. Anything else raises
      (an `IndexError`, `KeyError` or `TypeError`), shown as `None`. */
  function First(v: Json): (r: Option<Json>)
    ensures r.Some? <==> (v.Arr? && v.items != []) || (v.Str? && v.s != [])
  {
    match v
    case Arr(items) => if items == [] then None else Some(items[0])
    case Str(s) => if s == [] then None else Some(Str([s[0]]))
    case _ => None
  }

  /** What `for x in v` runs over: a list's elements, a string's characters
      as one-character strings, a dict's keys. A number, a boolean or
      `None` is not iterable and raises `TypeError`, shown as `None`. */
  function Elements(v: Json): (r: Option<seq<Json>>)
    ensures r.Some? <==> v.Arr? || v.Str? || v.Obj?
    ensures v.Arr? ==> r == Some(v.items)
    ensures r.Some? ==> |r.value| == (match v case Str(s) => |s| case Obj(fs) => |fs| case _ => |r.value|)
    ensures v.Str? ==> forall i | 0 <= i < |v.s| :: r.value[i] == Str([v.s[i]])
    ensures v.Obj? ==> forall i | 0 <= i < |v.fields| :: r.value[i] == Str(v.fields[i].0)
  {
    match v
    case Arr(items) => Some(items)
    case Str(s) => Some(seq(|s|, i requires 0 <= i < |s| => Str([s[i]])))
    case Obj(fields) => Some(seq(|fields|, i requires 0 <= i < |fields| => Str(fields[i].0)))
    case _ => None
  }

  /** What an f-string placeholder shows for `v`: a string shows itself;
      anything else shows as `str(v)`, which `show` stands for. */
  function Format(v: Json, show: Json -> string): string {
    if v.Str? then v.s else show(v)
  }
}
