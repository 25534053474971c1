/** JSON values, as produced by `JSON.parse` and sent by `NextResponse.json`. */
module Json {

  import opened Wrappers

  datatype Json =
    | JNull
    | JBool(b: bool)
    | JNumber(n: real)
    | JString(s: string)
    | JArray(items: seq<Json>)
    | JObject(members: seq<(string, Json)>)

  /** Property access `j.key`: the first member named `key` of an object, absent otherwise. */
  function Member(j: Json, key: string): (r: Option<Json>)
    ensures r.Some? ==> j.JObject? && exists i | 0 <= i < |j.members| :: j.members[i] == (key, r.value)
    ensures j.JObject? && |j.members| > 0 && j.members[0].0 == key ==> r == Some(j.members[0].1)
    decreases if j.JObject? then |j.members| else 0
  {
    match j
    case JObject(ms) =>
      if ms == [] then None
      else if ms[0].0 == key then Some(ms[0].1)
      else
        var r := Member(JObject(ms[1..]), key);
        assert r.Some? ==> exists i | 0 <= i < |ms[1..]| :: ms[1..][i] == (key, r.value);
        r
    case _ => None
  }

  /** JavaScript truthiness of a parsed value (NaN does not arise from exact numbers). */
  predicate IsTruthy(j: Json) {
    match j
    case JNull => false
    case JBool(b) => b
    case JNumber(n) => n != 0.0
    case JString(s) => s != ""
    case _ => true
  }

  /** `x || null` on an optional parsed value: absent (null) unless present and truthy. */
  function OrNullJson(o: Option<Json>): (r: Option<Json>)
    ensures r.Some? <==> o.Some? && IsTruthy(o.value)
    ensures r.Some? ==> r == o
  {
    if o.Some? && IsTruthy(o.value) then o else None
  }
}
