/** What a backend reply looks like to the client once the network and the JSON
    parser are abstracted away: a status code, the body as UTF-8 text (if it is
    UTF-8) and the body as a JSON object (if it is one). */
module Http {
  import opened Common

  /** A JSON value, as far as the client's `Decodable` structs can tell values apart. */
  datatype JsonValue = JNull | JString(str: string) | JObject(members: map<string, JsonValue>) | JOther

  type JsonObject = map<string, JsonValue>

  datatype Response = Response(
    status: int,
    /** `String(data: body, encoding: .utf8)`: None when the body is not UTF-8. */
    text: Option<string>,
    /** The body parsed as a JSON object: None when it is not one. */
    json: Option<JsonObject>)

  /** One round trip of `URLSession.data(for:)`: an HTTP response, a reply that is
      not an `HTTPURLResponse`, or a thrown transport error with its description. */
  datatype Exchange = Received(response: Response) | NotHttp | TransportError(description: string)

  /** Decoding a `String?` property with `JSONDecoder`: an absent key or null gives
      nil, a string gives the string, and any other value fails the whole decode.
      The outer Option is the success of the decode. */
  function OptionalString(obj: JsonObject, key: string): (r: Option<Option<string>>)
    ensures r == Some(None) <==> key !in obj || obj[key] == JNull
    ensures forall s :: r == Some(Some(s)) <==> key in obj && obj[key] == JString(s)
  {
    if key !in obj then Some(None)
    else match obj[key]
      case JNull => Some(None)
      case JString(s) => Some(Some(s))
      case _ => None
  }

  /** Decoding a non-optional `String` property: it must be present and a string. */
  function RequiredString(obj: JsonObject, key: string): (r: Option<string>)
    ensures r.Some? <==> key in obj && obj[key].JString?
    ensures r.Some? ==> obj[key] == JString(r.value)
  {
    if key in obj && obj[key].JString? then Some(obj[key].str) else None
  }

  /** All the listed `String?` properties decode. */
  predicate OptionalStringsDecode(obj: JsonObject, keys: set<string>) {
    forall k :: k in keys ==> OptionalString(obj, k).Some?
  }

  /** A struct whose properties are all `String?`, decoded from the body: None
      when the body is not a JSON object or one property has the wrong type. */
  predicate DecodesOptionalStrings(body: Option<JsonObject>, keys: set<string>) {
    body.Some? && OptionalStringsDecode(body.value, keys)
  }

  /** The value of a `String?` property once the struct has decoded. */
  function Field(obj: JsonObject, key: string): (r: Option<string>)
    requires OptionalString(obj, key).Some?
    ensures r.Some? <==> key in obj && obj[key].JString?
  {
    OptionalString(obj, key).value
  }

  /** The markers both services read as "the backend leaked an internal failure"
      (an HTML 500 page, a Python client error naming a URL, a private 10.x address). */
  predicate MentionsInternalError(detail: string) {
    Contains(detail, "Internal Server Error") || Contains(detail, " for url: ") || Contains(detail, "10.")
  }
}
