/** The JSON value every message node projects to, and the two org.json updates the projections use. */
module Json {
  import opened Wrappers

  /** A JSON value; an object is a key-to-value map because its key order is not observable. */
  datatype Json =
    | JString(str: string)
    | JInt(num: int)
    | JBool(truth: bool)
    | JObject(members: map<string, Json>)
    | JArray(items: seq<Json>)

  type Members = map<string, Json>

  /** A nullable text field as the value its projection writes, if any. */
  function OptString(v: Option<string>): Option<Json>
  {
    match v
    case None => None
    case Some(s) => Some(JString(s))
  }

  /** Key `key` is in `m` exactly when `v` is present, and then maps to it. */
  predicate PresentExactly(m: Members, key: string, v: Option<Json>)
  {
    (key in m <==> v.Some?) && (v.Some? ==> m[key] == v.value)
  }

  /**
   * A run of `if (v != null) json.put(key, v)` steps into a fresh object, one per slot: every key
   * whose value is present is put, every null one is skipped, and no other key appears.
   */
  function PutPresent(slots: map<string, Option<Json>>): (m: Members)
    ensures m.Keys <= slots.Keys
    ensures forall k | k in slots :: PresentExactly(m, k, slots[k])
  {
    map k | k in slots && slots[k].Some? :: slots[k].value
  }

  /** JSONObject.append(key, v): start a one-element array on the first call, extend it afterwards. */
  function Append(m: Members, key: string, v: Json): (r: Members)
    requires key in m ==> m[key].JArray?
    ensures r.Keys == m.Keys + {key}
    ensures r[key].JArray? && r[key].items == (if key in m then m[key].items else []) + [v]
    ensures forall k :: k in m && k != key ==> r[k] == m[k]
  {
    if key in m then m[key := JArray(m[key].items + [v])] else m[key := JArray([v])]
  }

  /** list.forEach(x -> json.append(key, x)): append every element in list order. */
  function AppendAll(m: Members, key: string, vs: seq<Json>): (r: Members)
    requires key in m ==> m[key].JArray?
    ensures key in m ==> r == m[key := JArray(m[key].items + vs)]
    ensures key !in m ==> r == if vs == [] then m else m[key := JArray(vs)]
    decreases |vs|
  {
    if vs == [] then
      assert key in m ==> m[key := JArray(m[key].items + vs)] == m by {
        if key in m { assert m[key].items + vs == m[key].items; }
      }
      m
    else
      var items := if key in m then m[key].items else [];
      var next := Append(m, key, vs[0]);
      assert next == m[key := JArray(items + [vs[0]])];
      var r := AppendAll(next, key, vs[1..]);
      assert items + [vs[0]] + vs[1..] == items + vs;
      assert r == m[key := JArray(items + vs)];
      assert key !in m ==> items + vs == vs;
      r
  }
}
