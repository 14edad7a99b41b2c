/** The JSON values that `JSONSerialization` hands back (`Any` in Swift), and the
    casts the library applies to them (`as? [String: Any]`, `as? String`). */
module JsonValue {
  import opened Wrappers

  /** Numbers are kept as integers: no part of the model reads a number. */
  datatype Json =
    | JNull
    | JBool(b: bool)
    | JNumber(n: int)
    | JString(s: string)
    | JArray(items: seq<Json>)
    | JObject(members: map<string, Json>)

  /** `json as? [String: Any]` */
  function AsObject(j: Json): (r: Option<map<string, Json>>)
    ensures r.Some? <==> j.JObject?
    ensures r.Some? ==> r.value == j.members
  {
    if j.JObject? then Some(j.members) else None
  }

  /** `dict[key] as? String` */
  function StringMember(dict: map<string, Json>, key: string): (r: Option<string>)
    ensures r.Some? <==> key in dict && dict[key].JString?
    ensures r.Some? ==> dict[key] == JString(r.value)
  {
    if key in dict && dict[key].JString? then Some(dict[key].s) else None
  }

  /** `dict[key] as? [String: Any]` */
  function ObjectMember(dict: map<string, Json>, key: string): (r: Option<map<string, Json>>)
    ensures r.Some? <==> key in dict && dict[key].JObject?
    ensures r.Some? ==> dict[key] == JObject(r.value)
  {
    if key in dict && dict[key].JObject? then Some(dict[key].members) else None
  }

  /** `dict[key] as? [Any]` */
  function ArrayMember(dict: map<string, Json>, key: string): (r: Option<seq<Json>>)
    ensures r.Some? <==> key in dict && dict[key].JArray?
    ensures r.Some? ==> dict[key] == JArray(r.value)
  {
    if key in dict && dict[key].JArray? then Some(dict[key].items) else None
  }
}
