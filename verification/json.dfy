/** Request and response payloads as JSON values, before serialisation.
    Objects keep their properties in insertion order, as `JSON.stringify` writes
    them; a property whose value is `undefined` is not written at all. */
module Json {
  import opened Wrappers

  datatype Json =
    | JNull
    | JBool(b: bool)
    | JNum(n: int)
    | JStr(s: string)
    | JArr(items: seq<Json>)
    | JObj(fields: seq<(string, Json)>)

  /** A socket frame `{ event, data }`, as both sockets of the client send them. */
  function Frame(event: string, data: Json): (j: Json)
    ensures j.JObj? && Lookup(j.fields, "event") == Some(JStr(event)) && Lookup(j.fields, "data") == Some(data)
  {
    JObj([("event", JStr(event)), ("data", data)])
  }

  /** A string-or-null property value: `null` serialises as `null`. */
  function OptStr(v: Option<string>): (j: Json)
    ensures v.None? <==> j == JNull
    ensures v.Some? ==> j == JStr(v.value)
  {
    match v
    case None => JNull
    case Some(s) => JStr(s)
  }

  /** The properties an object literal contributes for `key: value` when `value`
      may be `undefined` (`None`). */
  function OptionalField(key: string, value: Option<Json>): (fs: seq<(string, Json)>)
    ensures value.None? ==> fs == []
    ensures value.Some? ==> fs == [(key, value.value)]
  {
    match value
    case None => []
    case Some(v) => [(key, v)]
  }

  /** The value of the first property named `key`, as `obj[key]` reads it back. */
  function Lookup(fields: seq<(string, Json)>, key: string): (r: Option<Json>)
    ensures r.Some? <==> exists i :: 0 <= i < |fields| && fields[i].0 == key
    ensures r.Some? ==> exists i :: 0 <= i < |fields| && fields[i] == (key, r.value)
  {
    if fields == [] then None
    else if fields[0].0 == key then Some(fields[0].1)
    else
      var r := Lookup(fields[1..], key);
      assert forall i :: 1 <= i < |fields| ==> fields[i] == fields[1..][i - 1];
      r
  }
}
