/**
 * Parsed JSON values, as the handlers receive them after `JSON.parse`,
 * together with the optional-chaining lookups (`a?.b?.c`) and the
 * JavaScript truthiness test the handlers apply to them.
 */
module Json {
  import opened Wrappers

  /** A JSON value. Numbers are exact rationals; NaN and infinities cannot come out of `JSON.parse`. */
  datatype Json =
    | JNull
    | JBool(b: bool)
    | JNum(n: real)
    | JStr(s: string)
    | JArr(items: seq<Json>)
    | JObj(fields: map<string, Json>)

  /** `j?.[key]`: the field of an object, absent for every other kind of value. */
  function Field(j: Json, key: string): (r: Option<Json>)
    ensures r.Some? <==> j.JObj? && key in j.fields
    ensures r.Some? ==> r.value == j.fields[key]
  {
    if j.JObj? && key in j.fields then Some(j.fields[key]) else None
  }

  /** `j?.[k0]?.[k1]…`: follow a path of field names, absent as soon as one step is. */
  function Path(j: Json, keys: seq<string>): Option<Json>
    decreases |keys|
  {
    if keys == [] then Some(j)
    else match Field(j, keys[0])
      case None => None
      case Some(child) => Path(child, keys[1..])
  }

  /** The string at a path, if there is one and it is a string. */
  function StringAt(j: Json, keys: seq<string>): (r: Option<string>)
    ensures r.Some? <==> Path(j, keys).Some? && Path(j, keys).value.JStr?
    ensures r.Some? ==> Path(j, keys) == Some(JStr(r.value))
  {
    match Path(j, keys)
    case Some(JStr(s)) => Some(s)
    case _ => None
  }

  /** JavaScript truthiness of a value (`if (x)`); an absent value is falsy. */
  predicate Truthy(o: Option<Json>) {
    match o
    case None => false
    case Some(JNull) => false
    case Some(JBool(b)) => b
    case Some(JNum(n)) => n != 0.0
    case Some(JStr(s)) => s != ""
    case Some(_) => true
  }

  /** Whether a value is a non-null, non-array object (zod's `z.record`). */
  predicate IsObject(o: Option<Json>) {
    o.Some? && o.value.JObj?
  }

  /**
   * A browser `MessageEvent`, seen as the object of its own properties: the
   * frame's text is under `data`, and there is no `utf8Data`, which only the
   * frames of node's `websocket` package carry.
   */
  predicate IsBrowserMessageEvent(event: Json) {
    event.JObj? && "data" in event.fields && "utf8Data" !in event.fields
  }
}
