/**
  JSON documents as the chat endpoint returns them (serde_json's `Value`), the
  two lookups the scraper uses (`Value::get` with a key and with an index,
  `Value::as_str`), and a generic walk along a path of such lookups, which is
  the reference the fixed extractors are proved against.
*/
module Json {
  import opened Wrappers

  /** A parsed JSON value. Numbers are kept as integers: no extractor looks at them. */
  datatype Json =
    | Null
    | Bool(b: bool)
    | Num(n: int)
    | Str(s: string)
    | Arr(items: seq<Json>)
    | Obj(fields: map<string, Json>)

  /** `Value::get` with a key: the member of an object, nothing for any other value. */
  function Get(v: Json, key: string): (r: Option<Json>)
    ensures r.Some? <==> v.Obj? && key in v.fields
    ensures r.Some? ==> r.value == v.fields[key]
  {
    if v.Obj? && key in v.fields then Some(v.fields[key]) else None
  }

  /** `Value::get` with an index: an element of an array, nothing for any other value. */
  function At(v: Json, i: nat): (r: Option<Json>)
    ensures r.Some? <==> v.Arr? && i < |v.items|
    ensures r.Some? ==> r.value == v.items[i]
  {
    if v.Arr? && i < |v.items| then Some(v.items[i]) else None
  }

  /** `Value::as_str`: the text of a string value, nothing for any other value. */
  function AsStr(v: Json): (r: Option<string>)
    ensures r.Some? <==> v.Str?
    ensures r.Some? ==> r.value == v.s
  {
    if v.Str? then Some(v.s) else None
  }

  /** One lookup of a path. */
  datatype Step = Key(name: string) | Index(i: nat)

  function Follow(v: Json, step: Step): Option<Json> {
    match step
    case Key(k) => Get(v, k)
    case Index(i) => At(v, i)
  }

  /** The value found by following `path` from `v`, if every lookup succeeds. */
  function Walk(v: Json, path: seq<Step>): Option<Json>
    decreases |path|
  {
    if path == [] then Some(v)
    else match Follow(v, path[0])
      case None => None
      case Some(w) => Walk(w, path[1..])
  }

  /** Walking `p + q` is walking `p` and then, from what was found, walking `q`. */
  lemma {:induction false} WalkAppend(v: Json, p: seq<Step>, q: seq<Step>)
    ensures Walk(v, p + q) == match Walk(v, p) case None => None case Some(w) => Walk(w, q)
    decreases |p|
  {
    if p == [] {
      assert p + q == q;
    } else {
      assert (p + q)[0] == p[0];
      assert (p + q)[1..] == p[1..] + q;
      match Follow(v, p[0])
      case None =>
      case Some(w) => WalkAppend(w, p[1..], q);
    }
  }

  /** A walk fails as soon as one lookup fails: the failing prefix decides the result. */
  lemma {:induction false} WalkStopsAtMissing(v: Json, p: seq<Step>, q: seq<Step>)
    requires Walk(v, p).None?
    ensures Walk(v, p + q).None?
  {
    WalkAppend(v, p, q);
  }
}
