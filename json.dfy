/** The JSON documents both cores read and write (settings, checkpoints,
    samples exchanged with an environment). Numbers are `real`; a number
    that is not finite (NaN or an infinity) is `JNonFinite`. */
module Json {
  import opened Wrappers

  datatype Json =
    | JNull
    | JBool(b: bool)
    | JNum(x: real)
    | JNonFinite
    | JStr(s: string)
    | JArr(items: seq<Json>)
    | JObj(fields: map<string, Json>)

  /** The value under a key path, as `isDefined` / `js[k1][k2]...` find it. */
  function Lookup(js: Json, path: seq<string>): (r: Option<Json>)
    ensures path == [] ==> r == Some(js)
    ensures |path| > 0 && !(js.JObj? && path[0] in js.fields) ==> r == None
    decreases |path|
  {
    if path == [] then Some(js)
    else if js.JObj? && path[0] in js.fields then Lookup(js.fields[path[0]], path[1..])
    else None
  }

  /** `js` with `v` stored under a one-step key (an object is created from a
      non-object, as `js[k] = v` does in the JSON library). */
  function Put(js: Json, key: string, v: Json): (r: Json)
    ensures r.JObj? && key in r.fields && r.fields[key] == v
    ensures js.JObj? ==> forall k :: k in js.fields && k != key ==> k in r.fields && r.fields[k] == js.fields[k]
  {
    if js.JObj? then JObj(js.fields[key := v]) else JObj(map[key := v])
  }

  /** `js` with `key` removed, as `js.erase(key)`. */
  function Erase(js: Json, key: string): (r: Json)
    ensures js.JObj? ==> r.JObj? && r.fields.Keys == js.fields.Keys - {key}
    ensures js.JObj? ==> forall k :: k in r.fields ==> r.fields[k] == js.fields[k]
    ensures !js.JObj? ==> r == js
  {
    if js.JObj? then JObj(js.fields - {key}) else js
  }

  /** The item at `i` of an array (`js[i]`), `None` when there is none. */
  function At(js: Json, i: nat): (r: Option<Json>)
    ensures r.Some? <==> js.JArr? && i < |js.items|
    ensures r.Some? ==> r.value == js.items[i]
  {
    if js.JArr? && i < |js.items| then Some(js.items[i]) else None
  }

  function Numbers(xs: seq<real>): (r: Json)
    ensures r.JArr? && |r.items| == |xs|
    ensures forall i :: 0 <= i < |xs| ==> r.items[i] == JNum(xs[i])
  {
    JArr(seq(|xs|, i requires 0 <= i < |xs| => JNum(xs[i])))
  }

  /** The numbers of an array of numbers; `None` if any item is not a number. */
  function ToNumbers(js: Json): (r: Option<seq<real>>)
    ensures r.Some? ==> js.JArr? && |r.value| == |js.items|
    ensures r.Some? ==> forall i :: 0 <= i < |js.items| ==> js.items[i] == JNum(r.value[i])
    ensures js.JArr? && (forall i :: 0 <= i < |js.items| ==> js.items[i].JNum?) ==> r.Some?
  {
    if js.JArr? && forall i :: 0 <= i < |js.items| ==> js.items[i].JNum? then
      Some(seq(|js.items|, i requires 0 <= i < |js.items| => js.items[i].x))
    else None
  }

  lemma NumbersRoundTrip(xs: seq<real>)
    ensures ToNumbers(Numbers(xs)) == Some(xs)
  {
    var r := ToNumbers(Numbers(xs));
    assert r.Some?;
    assert r.value == xs by {
      forall i | 0 <= i < |xs| ensures r.value[i] == xs[i] {
        assert Numbers(xs).items[i] == JNum(r.value[i]);
      }
    }
  }
}
