/**
 * The JavaScript values a request body can parse to, with the parts of the
 * language the request validator uses: `typeof`, truthiness and property reads.
 */
module Json {
  import opened Wrappers

  /** A value produced by `req.json()`. */
  datatype JsonValue =
    | JNull
    | JBool(b: bool)
    | JNumber(n: real)
    | JString(s: string)
    | JArray(elems: seq<JsonValue>)
    | JObject(fields: map<string, JsonValue>)

  /** `typeof v`, where `None` stands for `undefined`. */
  function TypeOf(v: Option<JsonValue>): (t: string)
    ensures t == "undefined" <==> v == None
    ensures t == "boolean" <==> v.Some? && v.value.JBool?
    ensures t == "string" <==> v.Some? && v.value.JString?
    ensures t == "object" <==> v.Some? && (v.value.JNull? || v.value.JArray? || v.value.JObject?)
  {
    match v
    case None => "undefined"
    case Some(JNull) => "object"
    case Some(JBool(_)) => "boolean"
    case Some(JNumber(_)) => "number"
    case Some(JString(_)) => "string"
    case Some(JArray(_)) => "object"
    case Some(JObject(_)) => "object"
  }

  /** JavaScript truthiness: `undefined`, `null`, `false`, `0` and `""` are falsy. */
  predicate Truthy(v: Option<JsonValue>) {
    match v
    case None => false
    case Some(JNull) => false
    case Some(JBool(b)) => b
    case Some(JNumber(n)) => n != 0.0
    case Some(JString(s)) => s != ""
    case Some(JArray(_)) => true
    case Some(JObject(_)) => true
  }

  /**
   * `v[key]` for the property names the handler reads: an own field of an
   * object, and `undefined` on any other value (none of those names is an
   * inherited property).
   */
  function Member(v: JsonValue, key: string): (m: Option<JsonValue>)
    ensures m.Some? <==> v.JObject? && key in v.fields
    ensures m.Some? ==> m.value == v.fields[key]
  {
    if v.JObject? && key in v.fields then Some(v.fields[key]) else None
  }
}
