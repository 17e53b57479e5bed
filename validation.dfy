/** The type guards that decide whether an inbound request body has the right shape. */
module Validation {
  import opened Wrappers
  import opened Json
  import opened Knowledge

  /** A well-formed chat request. */
  datatype Request = Request(message: string, language: Language, isInitialMessage: Option<bool>)

  /** `isValidLanguage`: a string equal to "fr" or "en". */
  function IsValidLanguage(lang: Option<JsonValue>): (ok: bool)
    ensures ok <==> lang == Some(JString("fr")) || lang == Some(JString("en"))
  {
    TypeOf(lang) == "string" && lang.value.s in ["fr", "en"]
  }

  /** The language a valid tag names. */
  function LanguageOf(lang: Option<JsonValue>): (l: Language)
    requires IsValidLanguage(lang)
    ensures lang == Some(JString(l.Tag()))
  {
    if lang.value.s == "fr" then Fr else En
  }

  /** Every language's own tag is valid and names it. */
  lemma LanguageTagRoundTrip(l: Language)
    ensures IsValidLanguage(Some(JString(l.Tag())))
    ensures LanguageOf(Some(JString(l.Tag()))) == l
  {
  }

  /**
   * `isValidRequestBody`: the body is a truthy object whose `message` is a
   * string, whose `language` is valid and whose `isInitialMessage` is
   * undefined or a boolean.
   */
  function IsValidRequestBody(body: JsonValue): (ok: bool)
    ensures ok <==>
      && body.JObject?
      && "message" in body.fields && body.fields["message"].JString?
      && "language" in body.fields && body.fields["language"] in [JString("fr"), JString("en")]
      && ("isInitialMessage" in body.fields ==> body.fields["isInitialMessage"].JBool?)
  {
    if !Truthy(Some(body)) || TypeOf(Some(body)) != "object" then false
    else
      var message := Member(body, "message");
      var language := Member(body, "language");
      var isInitialMessage := Member(body, "isInitialMessage");
      && TypeOf(message) == "string"
      && IsValidLanguage(language)
      && (isInitialMessage == None || TypeOf(isInitialMessage) == "boolean")
  }

  /** The request a valid body describes (the destructuring after the guard). */
  function RequestOf(body: JsonValue): (r: Request)
    requires IsValidRequestBody(body)
    ensures body.fields["message"] == JString(r.message)
    ensures body.fields["language"] == JString(r.language.Tag())
    ensures r.isInitialMessage.Some? <==> "isInitialMessage" in body.fields
    ensures r.isInitialMessage.Some? ==> body.fields["isInitialMessage"] == JBool(r.isInitialMessage.value)
  {
    Request(
      body.fields["message"].s,
      LanguageOf(Member(body, "language")),
      if "isInitialMessage" in body.fields then Some(body.fields["isInitialMessage"].b) else None)
  }

  /** The JSON body a client sends for a request. */
  function Encode(r: Request): JsonValue {
    var fields := map["message" := JString(r.message), "language" := JString(r.language.Tag())];
    match r.isInitialMessage
    case None => JObject(fields)
    case Some(b) => JObject(fields["isInitialMessage" := JBool(b)])
  }

  /** Every request's encoding passes the guard and destructures back to the same request. */
  lemma RequestRoundTrip(r: Request)
    ensures IsValidRequestBody(Encode(r))
    ensures RequestOf(Encode(r)) == r
  {
  }
}
