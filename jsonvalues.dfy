/** The JSON values the app sends and receives, as `JSONSerialization`
    produces them, with the Swift casts the code applies to a field
    (`as? String`, `as? Bool`, `as? Int`, `as? Double`, `as? [String: Any]`). */
module JsonValues {
  import opened Wrappers

  datatype Json =
    | JNull
    | JBool(b: bool)
    | JNumber(n: real)
    | JString(s: string)
    | JArray(items: seq<Json>)
    | JObject(fields: map<string, Json>)

  type JsonObject = map<string, Json>

  /** `value as? [String: Any]` */
  function AsObject(j: Json): (r: Option<JsonObject>)
    ensures r.Some? <==> j.JObject?
    ensures r.Some? ==> r.value == j.fields
  {
    if j.JObject? then Some(j.fields) else None
  }

  /** `object[key] as? String` */
  function StringAt(o: JsonObject, key: string): (r: Option<string>)
    ensures r.Some? <==> key in o && o[key].JString?
    ensures r.Some? ==> o[key] == JString(r.value)
  {
    if key in o && o[key].JString? then Some(o[key].s) else None
  }

  /** `object[key] as? Bool`: `JSONSerialization` hands back every JSON
      boolean and number as an `NSNumber`, and the cast to `Bool` succeeds
      on `true` and `false` and on the numbers exactly 1 and 0. */
  function BoolAt(o: JsonObject, key: string): (r: Option<bool>)
    ensures r == Some(true) <==> key in o && (o[key] == JBool(true) || o[key] == JNumber(1.0))
    ensures r == Some(false) <==> key in o && (o[key] == JBool(false) || o[key] == JNumber(0.0))
  {
    if key !in o then None
    else match o[key]
      case JBool(b) => Some(b)
      case JNumber(x) => if x == 1.0 then Some(true) else if x == 0.0 then Some(false) else None
      case _ => None
  }

  /** `object[key] as? Double` */
  function RealAt(o: JsonObject, key: string): (r: Option<real>)
    ensures r.Some? <==> key in o && o[key].JNumber?
    ensures r.Some? ==> o[key] == JNumber(r.value)
  {
    if key in o && o[key].JNumber? then Some(o[key].n) else None
  }

  /** `object[key] as? Int`: a number without a fractional part. */
  function IntAt(o: JsonObject, key: string): (r: Option<int>)
    ensures r.Some? <==> key in o && o[key].JNumber? && o[key].n.Floor as real == o[key].n
    ensures r.Some? ==> o[key] == JNumber(r.value as real)
  {
    if key in o && o[key].JNumber? && o[key].n.Floor as real == o[key].n then Some(o[key].n.Floor) else None
  }

  /** `object[key] as? [String: Any]` */
  function ObjectAt(o: JsonObject, key: string): (r: Option<JsonObject>)
    ensures r.Some? <==> key in o && o[key].JObject?
    ensures r.Some? ==> o[key] == JObject(r.value)
  {
    if key in o then AsObject(o[key]) else None
  }

  /** `object[key] as? [[String: Any]]`: an array whose items are all objects. */
  function ObjectsAt(o: JsonObject, key: string): (r: Option<seq<JsonObject>>)
    ensures r.Some? <==> key in o && o[key].JArray? && forall i :: 0 <= i < |o[key].items| ==> o[key].items[i].JObject?
    ensures r.Some? ==> |r.value| == |o[key].items| && forall i :: 0 <= i < |r.value| ==> o[key].items[i] == JObject(r.value[i])
  {
    if key in o && o[key].JArray? && forall i :: 0 <= i < |o[key].items| ==> o[key].items[i].JObject? then
      var items := o[key].items;
      Some(seq(|items|, i requires 0 <= i < |items| && items[i].JObject? => items[i].fields))
    else None
  }
}
