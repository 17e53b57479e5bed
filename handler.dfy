/**
 * The `POST /api/chat` handler: validate the body, call the search and
 * completion services, parse the completion, overwrite its related
 * entities with the matcher's, and fall back to a fixed localized failure
 * payload on any error.
 */
module Handler {
  import opened Wrappers
  import opened Json
  import opened Knowledge
  import opened Entities
  import opened Matcher
  import opened Validation

  /** The completion text after `JSON.parse`, read as `RichResponseData`. */
  datatype ModelReply = ModelReply(
    message: string,
    hasEnoughContext: bool,
    suggestedQuestions: seq<string>,
    confidence: real,
    relatedPartners: seq<PartnerEntity>,
    relatedMembers: seq<TeamMemberEntity>,
    relevantLinks: seq<LinkData>,
    events: Option<seq<EventEntity>>)

  /** The JSON body of the handler's answer. */
  datatype ChatResponse = ChatResponse(
    message: string,
    hasEnoughContext: bool,
    suggestedQuestions: seq<string>,
    confidence: real,
    relatedPartners: seq<PartnerEntity>,
    relatedMembers: seq<TeamMemberEntity>,
    relevantLinks: seq<LinkData>,
    events: Option<seq<EventEntity>>,
    searchResults: Option<string>,
    success: bool)

  /** An HTTP status with its JSON body. */
  datatype HttpResponse = HttpResponse(status: int, body: ChatResponse)

  /** What the completion service is asked: the prompt's inputs, the search results and the user's message. */
  datatype CompletionRequest = CompletionRequest(
    language: Language,
    isInitialMessage: bool,
    searchResults: string,
    message: string)

  /** The apology shown when a request fails. */
  const ErrorMessage := Localized(
    "Désolé, je n'ai pas pu traiter votre demande. Veuillez réessayer.",
    "Sorry, I couldn't process your request. Please try again.")

  /** The three follow-up prompts shown when a request fails. */
  const ErrorSuggestions := [
    Localized("Pouvez-vous reformuler votre question ?", "Can you rephrase your question?"),
    Localized("Que souhaitez-vous savoir sur IAF ?", "What would you like to know about IAF?"),
    Localized("Puis-je vous aider autrement ?", "Can I help you with something else?")]

  /**
   * `createErrorResponse(language)`: the apology and three prompts in
   * `language`, no context, zero confidence, nothing related, not a success.
   */
  function CreateErrorResponse(language: Language): (r: ChatResponse)
    ensures r.message == ErrorMessage.In(language)
    ensures |r.suggestedQuestions| == 3
    ensures forall i :: 0 <= i < 3 ==> r.suggestedQuestions[i] == ErrorSuggestions[i].In(language)
    ensures !r.hasEnoughContext && r.confidence == 0.0 && !r.success
    ensures r.relatedPartners == [] && r.relatedMembers == [] && r.relevantLinks == []
    ensures r.events == None && r.searchResults == None
  {
    ChatResponse(
      ErrorMessage.In(language),
      false,
      [ErrorSuggestions[0].In(language), ErrorSuggestions[1].In(language), ErrorSuggestions[2].In(language)],
      0.0,
      [], [], [],
      None, None,
      false)
  }

  /** The texts a reader of a response sees: the message, then the suggestions. */
  function Texts(r: ChatResponse): seq<string> {
    [r.message] + r.suggestedQuestions
  }

  /** The failure payloads of the two languages share no text: neither mixes in the other language. */
  lemma ErrorResponseLanguagesDisjoint()
    ensures forall t :: t in Texts(CreateErrorResponse(Fr)) ==> t !in Texts(CreateErrorResponse(En))
  {
    var fr, en := Texts(CreateErrorResponse(Fr)), Texts(CreateErrorResponse(En));
    assert |fr| == |en| == 4;
    forall i, j | 0 <= i < 4 && 0 <= j < 4
      ensures fr[i] != en[j]
    {
      assert fr[i][0] != en[j][0] || fr[i][1] != en[j][1] || |fr[i]| != |en[j]|;
    }
  }

  /** The query sent to the search service. */
  function SearchQuery(message: string): string {
    "Ingénieur-e Au Féminin " + message
  }

  /** The request a parsed body describes, when the guard accepts it. */
  function RequestFrom(body: Option<JsonValue>): Option<Request> {
    if body.Some? && IsValidRequestBody(body.value) then Some(RequestOf(body.value)) else None
  }

  /** The language of the failure payload: the request's once it is read, French before. */
  function FallbackLanguage(body: Option<JsonValue>): Language {
    match RequestFrom(body)
    case Some(req) => req.language
    case None => Fr
  }

  /**
   * The external part of a turn: search, then completion, then `JSON.parse`;
   * the search results and the parsed reply, or `None` when any step fails.
   */
  function Consult(
    req: Request,
    search: string -> Option<string>,
    complete: CompletionRequest -> Option<string>,
    parse: string -> Option<ModelReply>): Option<(string, ModelReply)>
  {
    match search(SearchQuery(req.message))
    case None => None
    case Some(results) =>
      match complete(CompletionRequest(req.language, req.isInitialMessage.GetOr(false), results, req.message))
      case None => None
      case Some(text) =>
        match parse(text)
        case None => None
        case Some(reply) => Some((results, reply))
  }

  /**
   * `{...parsedResponse, relatedPartners, relatedMembers, success: true, searchResults}`:
   * the matcher's entities replace the reply's, everything else of the reply
   * passes through unchanged (the suggestions are neither padded nor cut).
   */
  function Enhance(reply: ModelReply, found: RelevantEntities, results: string): (r: ChatResponse)
    ensures r.success && r.searchResults == Some(results)
    ensures r.relatedPartners == found.relatedPartners && r.relatedMembers == found.relatedMembers
    ensures r.message == reply.message && r.hasEnoughContext == reply.hasEnoughContext
    ensures r.suggestedQuestions == reply.suggestedQuestions && r.confidence == reply.confidence
    ensures r.relevantLinks == reply.relevantLinks && r.events == reply.events
  {
    ChatResponse(
      reply.message, reply.hasEnoughContext, reply.suggestedQuestions, reply.confidence,
      found.relatedPartners, found.relatedMembers, reply.relevantLinks, reply.events,
      Some(results), true)
  }

  /**
   * `POST(req)`: a valid body whose search, completion and parse all succeed
   * gives status 200 with the matcher's entities; anything else gives status
   * 500 with the failure payload in the request's language, or in French when
   * the body is unreadable or invalid. `None` for `body` stands for a body
   * that is not JSON.
   */
  function Post(
    kb: KnowledgeBase,
    body: Option<JsonValue>,
    search: string -> Option<string>,
    complete: CompletionRequest -> Option<string>,
    parse: string -> Option<ModelReply>): (r: HttpResponse)
    ensures r.status == 200 || r.status == 500
    ensures r.status == 200 <==> r.body.success
    ensures r.body.success <==>
      RequestFrom(body).Some? && Consult(RequestFrom(body).value, search, complete, parse).Some?
    ensures !r.body.success ==> r.body == CreateErrorResponse(FallbackLanguage(body))
    ensures RequestFrom(body) == None ==> r.body == CreateErrorResponse(Fr)
    ensures r.body.success ==>
      var req := RequestFrom(body).value;
      var found := FindRelevantEntities(kb, req.message, req.language);
      var consulted := Consult(req, search, complete, parse).value;
      && r.body == Enhance(consulted.1, found, consulted.0)
      && r.body.relatedPartners == found.relatedPartners
      && r.body.relatedMembers == found.relatedMembers
      && r.body.searchResults == Some(consulted.0)
      && r.body.message == consulted.1.message
      && r.body.suggestedQuestions == consulted.1.suggestedQuestions
  {
    match RequestFrom(body)
    case None => HttpResponse(500, CreateErrorResponse(Fr))
    case Some(req) =>
      var found := FindRelevantEntities(kb, req.message, req.language);
      match Consult(req, search, complete, parse)
      case None => HttpResponse(500, CreateErrorResponse(req.language))
      case Some((results, reply)) => HttpResponse(200, Enhance(reply, found, results))
  }

  /**
   * A completion that offers two follow-up questions yields a successful
   * response with those two questions: nothing pads the list to three.
   */
  lemma TwoSuggestionsStayTwo()
    ensures
      var body := Encode(Request("Quels sont vos partenaires ?", Fr, Some(false)));
      var reply := ModelReply("Voici nos partenaires...", true, ["Q1", "Q2"], 0.8, [], [], [], None);
      var r := Post(KnowledgeBase([], []), Some(body), q => Some("[]"), c => Some("{}"), t => Some(reply));
      r.body.success && r.body.suggestedQuestions == ["Q1", "Q2"]
  {
    RequestRoundTrip(Request("Quels sont vos partenaires ?", Fr, Some(false)));
  }
}
