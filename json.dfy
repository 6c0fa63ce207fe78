/**
  The JSON values the page parsers walk, already parsed, with the lookups of `serde_json`
  they use. Looking a key up in a `Value` never fails (a missing key or a value that is
  not an object gives `Null`), while looking a key up in a `Map` panics when the key is
  missing; the model keeps that difference.
 */
module Json {
  import opened Wrappers

  /** A JSON value; a number is kept as its text, which the parsers never read. */
  datatype Json =
    | Null
    | Bool(b: bool)
    | Number(text: string)
    | Str(s: string)
    | Array(items: seq<Json>)
    | Object(fields: map<string, Json>)

  /** `value[key]` on a `Value`. */
  function Get(v: Json, key: string): Json {
    if v.Object? && key in v.fields then v.fields[key] else Null
  }

  /** `value[i]` on a `Value`. */
  function At(v: Json, i: nat): Json {
    if v.Array? && i < |v.items| then v.items[i] else Null
  }

  /** `value.get(i)`: the element when `value` is an array long enough. */
  function GetIndex(v: Json, i: nat): Option<Json> {
    if v.Array? && i < |v.items| then Some(v.items[i]) else None
  }

  /** `value[k1][k2]...` on a `Value`. */
  function Path(v: Json, keys: seq<string>): Json
    decreases |keys|
  {
    if keys == [] then v else Path(Get(v, keys[0]), keys[1..])
  }

  function AsStr(v: Json): Option<string> {
    if v.Str? then Some(v.s) else None
  }

  function AsArray(v: Json): Option<seq<Json>> {
    if v.Array? then Some(v.items) else None
  }

  function AsObject(v: Json): Option<map<string, Json>> {
    if v.Object? then Some(v.fields) else None
  }

  /** The value with the single member `key`. */
  function Single(key: string, v: Json): (r: Json)
    ensures Get(r, key) == v
  {
    Object(map[key := v])
  }

  /** A path of keys leads back to the value nested under them. */
  lemma {:induction false} PathNested(keys: seq<string>, v: Json)
    ensures Path(Nest(keys, v), keys) == v
    decreases |keys|
  {
    if keys != [] {
      PathNested(keys[1..], v);
    }
  }

  /** `v` nested under the keys, outermost first. */
  function Nest(keys: seq<string>, v: Json): (r: Json)
    ensures keys != [] ==> r.Object?
    decreases |keys|
  {
    if keys == [] then v else Single(keys[0], Nest(keys[1..], v))
  }
}
