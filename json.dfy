/** JSON values as `json.loads` produces them, and the few Python operations the
    capture addon and the viewer apply to them: `dict.get`, truthiness, `x or {}`,
    `isinstance(x, str)` and iteration. */
module JsonValues {
  import opened Wrappers

  /** Objects are association lists in document order. */
  datatype Json =
    | Null
    | Bool(b: bool)
    | Number(n: real)
    | String(s: string)
    | Array(items: seq<Json>)
    | Object(fields: seq<(string, Json)>)

  /** `d.get(key)` on a dict decoded by `json.loads`: a repeated key keeps its last value. */
  function Lookup(fields: seq<(string, Json)>, key: string): (r: Option<Json>)
    ensures r.Some? <==> exists i :: 0 <= i < |fields| && fields[i].0 == key
    ensures r.Some? ==> exists i :: 0 <= i < |fields| && fields[i] == (key, r.value)
                                   && forall j :: i < j < |fields| ==> fields[j].0 != key
  {
    if |fields| == 0 then None
    else if fields[|fields| - 1].0 == key then Some(fields[|fields| - 1].1)
    else Lookup(fields[..|fields| - 1], key)
  }

  /** `key in d` */
  predicate HasKey(fields: seq<(string, Json)>, key: string) {
    Lookup(fields, key).Some?
  }

  /** Python truthiness of a decoded value: None, False, 0, "", [] and {} are false. */
  predicate Truthy(v: Json) {
    match v
    case Null => false
    case Bool(b) => b
    case Number(n) => n != 0.0
    case String(s) => |s| > 0
    case Array(a) => |a| > 0
    case Object(f) => |f| > 0
  }

  /** `x or default`, where a missing key (Python `None`) is `None` here. */
  function OrElse(x: Option<Json>, default: Json): (r: Json)
    ensures x.Some? && Truthy(x.value) ==> r == x.value
    ensures (x.None? || !Truthy(x.value)) ==> r == default
  {
    if x.Some? && Truthy(x.value) then x.value else default
  }

  /** `isinstance(x, str)` on the result of a `.get`, yielding the string. */
  function AsString(x: Option<Json>): (r: Option<string>)
    ensures r.Some? <==> x.Some? && x.value.String?
    ensures r.Some? ==> x.value == String(r.value)
  {
    if x.Some? && x.value.String? then Some(x.value.s) else None
  }

  /** `v.get(key)`: only a dict has `.get`; on any other value Python raises AttributeError. */
  function Get(v: Json, key: string): (r: Res<Option<Json>>)
    ensures r.Ok? <==> v.Object?
    ensures r.Ok? ==> r.value == Lookup(v.fields, key)
  {
    if v.Object? then Ok(Lookup(v.fields, key)) else Raise
  }

  /** `for x in (v or [])` whose body then calls `x.get(...)`: a falsy value yields no
      elements, a list yields its items, and every other truthy value raises, either
      because it is not iterable (a number, `True`) or because it yields strings (the
      characters of a string, the keys of a dict) that have no `.get`. */
  function IterateForGet(v: Option<Json>): (r: Res<seq<Json>>)
    ensures v.None? || !Truthy(v.value) ==> r == Ok([])
    ensures v.Some? && v.value.Array? ==> r == Ok(v.value.items)
    ensures r.Raise? <==> v.Some? && Truthy(v.value) && !v.value.Array?
  {
    if v.None? || !Truthy(v.value) then Ok([])
    else if v.value.Array? then Ok(v.value.items)
    else Raise
  }
}
