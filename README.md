# Chat handler of the IAF association site, in Dafny

This project models the pure core of the `/api/chat` route of the
association's website (`src/app/api/chat/route.ts`): the request-body type
guards, the keyword matcher that links a user's question to partners and
team members, the two mappers that turn knowledge-base records into
response entities, the fixed localized failure payload, and the rule by
which `POST` assembles its answer. The search and completion services are
abstracted as inputs that either fail or return text.

Modules, one per concern:

- `Wrappers` — `Option`, for JavaScript's `undefined`.
- `JsString` — `toLowerCase` (ASCII letters), `split` on one character,
  `join`, `includes`, with their round trips (`join` after `split`, `split`
  after `join`) and the exact condition for an empty piece.
- `JsArray` — `filter`, `map`, `some`, `flat`, with order (subsequence),
  membership and multiplicity facts.
- `Json` — the values `req.json()` yields, `typeof`, truthiness, property reads.
- `Knowledge` — partner and team-member records, categories, and a few real
  records (CVEC, Sopra Steria, three members) as constants.
- `Validation` — `isValidLanguage`, `isValidRequestBody` and the request they admit.
- `Entities` — `mapPartnerToEntity`, `mapTeamMemberToEntity` and the entity types.
- `Matcher` — `findRelevantEntities` and its characterisation.
- `Handler` — `createErrorResponse`, the response spread and `POST`.

Behaviour kept as the code has it:

- The partner search text is the template literal of the source, line
  breaks and indentation included, lower-cased as a whole. An absent
  optional field is rendered by the template as the word `undefined`, so a
  partner without collaborations matches the query `undefined`
  (`Matcher.AbsentEventsMatchUndefined`).
- The query is split on single spaces only, so an empty query, a leading or
  trailing space or two spaces in a row produce the empty word, which occurs
  in every text: every partner and every member is then returned
  (`Matcher.EmptyWordMatchesEverything`). The code makes no exception for
  this case.
- The suggested questions of a successful answer are the completion's own,
  passed through unchanged: no code pads or truncates them to three
  (`Handler.TwoSuggestionsStayTwo`). Every failure, a malformed body
  included, answers status 500 (src/app/api/chat/route.ts:589, 628).

## Model

| member | source | states |
|---|---|---|
| `Json.TypeOf` | src/app/api/chat/route.ts:392-397 | `typeof` is "string" exactly for strings, "boolean" exactly for booleans, "object" exactly for null, arrays and objects, "undefined" exactly for a missing value |
| `Json.Member` | src/app/api/chat/route.ts:393 | a property read yields a value exactly when the body is an object holding that key, and the value is that key's own field |
| `Validation.IsValidLanguage` | src/app/api/chat/route.ts:387-389 | a language is valid exactly when it is the string "fr" or the string "en" |
| `Validation.LanguageOf` | src/app/api/chat/route.ts:387-389 | a valid tag names the language whose tag it is |
| `Validation.LanguageTagRoundTrip` | src/app/api/chat/route.ts:387-389 | each language's own tag is valid and reads back as that language |
| `Validation.IsValidRequestBody` | src/app/api/chat/route.ts:391-399 | a body is accepted exactly when it is an object whose `message` is a string, whose `language` is "fr" or "en", and whose `isInitialMessage` is absent or a boolean; null, arrays, strings, numbers and booleans are refused |
| `Validation.RequestOf` | src/app/api/chat/route.ts:592-593 | the destructured request carries the body's message, language and optional opening-turn flag |
| `Validation.RequestRoundTrip` | src/app/api/chat/route.ts:391-399 | every request, encoded as a client sends it, passes the guard and destructures back to itself |
| `JsString.Split` | src/app/api/chat/route.ts:545 | `split(' ')` yields at least one piece and no piece contains the separator |
| `JsString.JoinSplit` | src/app/api/chat/route.ts:545 | joining the pieces of a split with the separator gives back the string |
| `JsString.SplitJoin` | src/app/api/chat/route.ts:545 | splitting a join of separator-free pieces gives back the pieces |
| `JsString.SplitHasEmptyPiece` | src/app/api/chat/route.ts:545 | an empty piece appears exactly when the string is empty, starts or ends with the separator, or holds two separators in a row |
| `JsString.IncludesIff` | src/app/api/chat/route.ts:545 | `includes` holds exactly when the word occurs at some position of the text |
| `JsString.LowerIdempotent` | src/app/api/chat/route.ts:543-545 | lower-casing an already lower-cased text changes nothing |
| `JsArray.Filter` | src/app/api/chat/route.ts:535-546 | the filter's output is no longer than its input and holds only input elements that pass |
| `JsArray.FilterCount` | src/app/api/chat/route.ts:535-546 | the filter keeps every occurrence of a passing element and none of a failing one, so it adds no duplicate |
| `JsArray.FilterMapSpec` | src/app/api/chat/route.ts:534-556 | filter-then-map contains the image of every passing element, only images of passing elements, in input order |
| `JsArray.Any` | src/app/api/chat/route.ts:545 | `some` holds exactly when some element passes |
| `JsArray.FlatMembers` | src/app/api/chat/route.ts:549 | an element is in the flattened list exactly when it is in one of the inner lists |
| `Entities.PartnerLinksSpec` | src/app/api/chat/route.ts:502-506 | the filtered candidate links number at most three, each has a non-empty URL and the matching title, their kinds are strictly in the order website, LinkedIn, Twitter, and a kind is present exactly when the record has a non-empty URL for it |
| `Entities.MapPartnerToEntity` | src/app/api/chat/route.ts:497-511 | the partner entity copies name, description, expertise, industry and collaborations, and carries at most three links, all with non-empty URLs taken from the record, in the order website, LinkedIn, Twitter, one for each non-empty URL |
| `Entities.MapTeamMemberToEntity` | src/app/api/chat/route.ts:513-531 | the member entity has the plain name in both languages, the task or the empty string as description in both languages, the role, task and year unchanged, and exactly one LinkedIn link when the member has a non-empty LinkedIn URL, none otherwise |
| `Matcher.PartnerTestIsRelevance` | src/app/api/chat/route.ts:535-545 | the partner filter callback holds exactly when some word of the lower-cased query occurs in the partner's lower-cased search text |
| `Matcher.MemberTestIsRelevance` | src/app/api/chat/route.ts:552-554 | the member filter callback holds exactly when some word of the lower-cased query occurs in the member's lower-cased name and role |
| `Matcher.FindRelevantPartners` | src/app/api/chat/route.ts:534-547 | every partner whose search text contains a query word is returned, as many times as it is listed, every returned entity comes from such a partner, and the result is a subsequence of the mapped partner list (partner order kept) |
| `Matcher.FindRelevantMembers` | src/app/api/chat/route.ts:549-556 | every member whose name and role contain a query word is returned, as many times as it is listed, every returned entity comes from such a member, and the result keeps the category-flattened member order |
| `Matcher.AllMembersSpec` | src/app/api/chat/route.ts:549 | the members searched are exactly those listed under some category |
| `Matcher.AllMembersInCategoryOrder` | src/app/api/chat/route.ts:549 | members of earlier categories are searched, and returned, before those of later ones |
| `Matcher.QueryTokensSpec` | src/app/api/chat/route.ts:545 | the query has an empty word exactly when it is empty, starts or ends with a space or holds two spaces in a row; no word holds a space; the words joined by spaces are the lower-cased query |
| `Matcher.EmptyWordMatchesEverything` | src/app/api/chat/route.ts:545-556 | an empty query, or one with a leading, trailing or doubled space, returns every partner and every member, in order |
| `Matcher.AbsentEventsMatchUndefined` | src/app/api/chat/route.ts:536-545 | a partner without collaborations, or without events among them, renders "undefined" into its search text and so matches the query "undefined" |
| `Matcher.CvecMatchesUndefined` | src/lib/types.ts:152-157 | the CVEC record, which lists initiatives but no events, matches the query "undefined" in either language |
| `Matcher.NameWordMatches` | src/app/api/chat/route.ts:536-543 | a word occurring in a partner's lower-cased name occurs in its search text |
| `Matcher.PartnerFoundByName` | src/app/api/chat/route.ts:534-547 | a listed partner whose lower-cased name contains a query word is returned |
| `Matcher.SopraSteriaFound` | src/lib/types.ts:510-515 | in any knowledge base listing Sopra Steria, the query "Sopra Steria stage" returns it |
| `Handler.CreateErrorResponse` | src/app/api/chat/route.ts:562-579 | the failure payload has the apology and exactly three prompts, all in the requested language, no context, confidence 0, no partners, members or links, and success false |
| `Handler.ErrorResponseLanguagesDisjoint` | src/app/api/chat/route.ts:562-579 | the French and English failure payloads share no text |
| `Handler.Enhance` | src/app/api/chat/route.ts:616-622 | the answer takes the matcher's partners and members in place of the completion's, is marked successful with the search results, and passes every other field of the completion through, suggestions included |
| `Handler.Post` | src/app/api/chat/route.ts:581-629 | status 200 exactly on success; success exactly when the body is valid and search, completion and parse all succeed; a success is the completion's reply with the matcher's entities for the request's message and language in place of its own, the search results and success true, every other field (message, context flag, suggestions, confidence, links, events) passed through; any failure is status 500 with the failure payload in the request's language, or in French when the body is unreadable or invalid |
| `Handler.TwoSuggestionsStayTwo` | src/app/api/chat/route.ts:610-622 | a completion offering two questions gives a successful answer with those two questions |

## Left out

- The search and completion services (`TavilySearchResults`, `ChatGroq`, `Promise.all`) are function parameters that return text or fail; retries, timeouts and credentials are not modelled.
- `req.json()` is an optional parsed body (`None` when the body is not JSON); `JSON.parse` of the completion is a parameter returning an optional reply.
- `Handler.Post`: a completion that parses to JSON without the `RichResponseData` shape (missing fields, extra keys, a non-object) is not modelled; the reply is assumed to carry every field, and extra keys the spread would copy are dropped.
- `createEnhancedContext` and `getEnhancedSystemPrompt` are prompt templating with no contract; the completion request carries their inputs (language, opening-turn flag) instead of the prompt text.
- `NextResponse`, `console.error` and the `searchResults` payload's structure (kept as an opaque string) are left out.
- `JsString.Lower`: lower-cases ASCII letters only; JavaScript's full Unicode case mapping (accented capitals such as `É`, length-changing mappings) is not modelled.
- The knowledge base is a parameter; only five of its records are written out as constants, and record fields the handler never reads (logos, contacts, addresses, metadata) are omitted.
- Partner iteration order is taken to be declaration order, which is what `Object.entries` gives for the non-numeric keys the partner table uses.
- Member records are typed: a non-string name or LinkedIn value, which the `any`-typed mapper would accept, is not modelled.
- The `chat-bubble` route, the page and widget components and their transcript state are outside this model.
