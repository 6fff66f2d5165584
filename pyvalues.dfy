/** The dynamically typed values that cross the client's boundary: the arguments a caller passes
    (which `_validate_query` type-checks) and the JSON bodies the service answers with. */
module PyValues {
  import opened Wrappers
  import opened Errors

  /** A caller's argument, as far as `isinstance` checks can tell. */
  datatype PyValue = PyNone | PyStr(s: string) | PyList(items: seq<PyValue>) | PyOther

  /** A decoded JSON value; an object keeps its keys in insertion order, as a Python dict does. */
  datatype Json =
    | JNull
    | JBool(b: bool)
    | JNumber(n: real)
    | JString(s: string)
    | JArray(items: seq<Json>)
    | JObject(entries: seq<(string, Json)>)

  /** A decoded JSON object used only through key lookups. */
  type Object = map<string, Json>

  /** `obj.get(key, default)`. */
  function Get(obj: Object, key: string, default: Json): (r: Json)
    ensures key in obj ==> r == obj[key]
    ensures key !in obj ==> r == default
  {
    if key in obj then obj[key] else default
  }

  /** The values `for x in v` visits: array items, the one-character strings of a string,
      the keys of an object; anything else raises TypeError. */
  function Iterate(v: Json): (r: Result<seq<Json>, Error>)
    ensures r.Ok? <==> v.JArray? || v.JString? || v.JObject?
    ensures v.JArray? ==> r == Ok(v.items)
    ensures v.JString? ==> r.Ok? && |r.value| == |v.s| && forall i :: 0 <= i < |v.s| ==> r.value[i] == JString([v.s[i]])
    ensures v.JObject? ==> r.Ok? && |r.value| == |v.entries| && forall i :: 0 <= i < |v.entries| ==> r.value[i] == JString(v.entries[i].0)
    ensures r.Err? ==> r.error == NotIterable
  {
    match v
    case JArray(items) => Ok(items)
    case JString(s) => Ok(seq(|s|, i requires 0 <= i < |s| => JString([s[i]])))
    case JObject(entries) => Ok(seq(|entries|, i requires 0 <= i < |entries| => JString(entries[i].0)))
    case _ => Err(NotIterable)
  }

  /** The value stored under the first entry with that key. */
  function Lookup(entries: seq<(string, Json)>, key: string): (r: Option<Json>)
    ensures r.Some? <==> exists i :: 0 <= i < |entries| && entries[i].0 == key
  {
    if entries == [] then None
    else if entries[0].0 == key then Some(entries[0].1)
    else
      var r := Lookup(entries[1..], key);
      assert forall i :: 1 <= i < |entries| ==> entries[i] == entries[1..][i - 1];
      r
  }

  function Keys(entries: seq<(string, Json)>): (r: seq<string>)
    ensures |r| == |entries| && forall i :: 0 <= i < |entries| ==> r[i] == entries[i].0
  {
    seq(|entries|, i requires 0 <= i < |entries| => entries[i].0)
  }
}
