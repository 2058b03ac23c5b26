/**
 * Decoded JSON values as the source sees them after `json.loads`, with the
 * few dict operations and Python truth tests the filters rely on.
 */
module Json {
  import opened Wrappers

  /**
   * A JSON value. Objects keep their members in insertion order, as Python
   * dicts do; a decoded object has distinct keys. Numbers are integers.
   */
  datatype Json =
    | Null
    | Bool(b: bool)
    | Num(n: int)
    | Str(s: string)
    | Arr(items: seq<Json>)
    | Obj(fields: seq<(string, Json)>)

  /** `d.get(key)` on the members of a dict. */
  function Get(fields: seq<(string, Json)>, key: string): (r: Option<Json>)
    ensures r.Some? <==> exists i | 0 <= i < |fields| :: fields[i].0 == key
    ensures r.Some? ==> exists i | 0 <= i < |fields| :: fields[i] == (key, r.value)
  {
    if fields == [] then None
    else if fields[0].0 == key then Some(fields[0].1)
    else Get(fields[1..], key)
  }

  /** Members whose keys differ from `key` do not affect `d.get(key)`. */
  lemma {:induction false} GetSkips(xs: seq<(string, Json)>, ys: seq<(string, Json)>, key: string)
    requires forall p | p in xs :: p.0 != key
    ensures Get(xs + ys, key) == Get(ys, key)
    decreases |xs|
  {
    if xs == [] {
      assert xs + ys == ys;
    } else {
      assert xs[0] in xs;
      assert (xs + ys)[0] == xs[0] && (xs + ys)[1..] == xs[1..] + ys;
      GetSkips(xs[1..], ys, key);
    }
  }

  /** `key in d` for a dict `d`. */
  predicate HasKey(j: Json, key: string) {
    j.Obj? && Get(j.fields, key).Some?
  }

  /** `d.get(key)` where a missing key gives Python's `None`. */
  function Field(j: Json, key: string): Json
    requires j.Obj?
  {
    Get(j.fields, key).GetOr(Null)
  }

  /** `d.get(key, default)`. */
  function FieldOr(j: Json, key: string, default: Json): Json
    requires j.Obj?
  {
    Get(j.fields, key).GetOr(default)
  }

  /** Python's truth test: `None`, `False`, `0`, `""`, `[]` and `{}` are false. */
  predicate Truthy(j: Json) {
    match j
    case Null => false
    case Bool(b) => b
    case Num(n) => n != 0
    case Str(s) => s != ""
    case Arr(items) => items != []
    case Obj(fields) => fields != []
  }

  /** Python can hash the value, so it can be a dict key or a set member. */
  predicate Hashable(j: Json) {
    !j.Arr? && !j.Obj?
  }

  /**
   * `{**d, key: v}`: the value of an existing key is replaced where it
   * stands; a new key goes at the end.
   */
  function SetField(fields: seq<(string, Json)>, key: string, v: Json): (r: seq<(string, Json)>)
    ensures Get(r, key) == Some(v)
    ensures forall k | k != key :: Get(r, k) == Get(fields, k)
  {
    if fields == [] then [(key, v)]
    else if fields[0].0 == key then [(key, v)] + fields[1..]
    else [fields[0]] + SetField(fields[1..], key, v)
  }

  /** Decimal text of an integer, as Python's `str(n)`. */
  function IntToString(n: int): string
    decreases if n < 0 then 1 - n else n
  {
    if n < 0 then "-" + IntToString(-n)
    else if n < 10 then ["0123456789"[n]]
    else IntToString(n / 10) + ["0123456789"[n % 10]]
  }

  /** Python's `str(v)` for a scalar, as used when the source formats a message. */
  function PyStr(j: Json): string
    requires Hashable(j)
  {
    match j
    case Null => "None"
    case Bool(b) => if b then "True" else "False"
    case Num(n) => IntToString(n)
    case Str(s) => s
  }
}
