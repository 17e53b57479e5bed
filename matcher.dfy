/**
 * `findRelevantEntities`: the keyword matcher that links a free-text query
 * to the partners and team members whose lower-cased text contains one of
 * the query's space-separated words.
 */
module Matcher {
  import opened Wrappers
  import opened JsString
  import opened JsArray
  import opened Knowledge
  import opened Entities

  /** The two lists the matcher returns. */
  datatype RelevantEntities = RelevantEntities(
    relatedPartners: seq<PartnerEntity>,
    relatedMembers: seq<TeamMemberEntity>)

  /** `query.toLowerCase().split(' ')`. */
  function QueryTokens(query: string): seq<string> {
    Split(Lower(query), ' ')
  }

  /** `${v}` inside a template literal: an absent value is rendered as "undefined". */
  function Rendered(v: Option<string>): string {
    match v
    case Some(s) => s
    case None => "undefined"
  }

  /** `xs?.join(' ')`. */
  function JoinedWords(xs: Option<seq<string>>): Option<string> {
    match xs
    case Some(ws) => Some(Join(ws, " "))
    case None => None
  }

  /** `items?.map(i => i[lang]).join(' ')`. */
  function JoinedIn(items: Option<seq<Localized>>, lang: Language): Option<string> {
    match items
    case Some(xs) => Some(Join(Map(xs, (x: Localized) => x.In(lang)), " "))
    case None => None
  }

  /** `partner.collaborations?.events?...` */
  function EventsIn(p: Partner, lang: Language): Option<string> {
    if p.collaborations.Some? then JoinedIn(p.collaborations.value.events, lang) else None
  }

  /** `partner.collaborations?.initiatives?...` */
  function InitiativesIn(p: Partner, lang: Language): Option<string> {
    if p.collaborations.Some? then JoinedIn(p.collaborations.value.initiatives, lang) else None
  }

  /** The line break and indentation that start each line of the partner template. */
  const Indent := "\n        "

  /** The partner's template before lower-casing: everything up to the events line. */
  function PartnerTextHead(p: Partner, lang: Language): string {
    Indent + p.name.In(lang) + " " + Indent + p.description.In(lang) + " "
    + Indent + Rendered(JoinedWords(p.expertise)) + Indent + Rendered(JoinedWords(p.industry))
    + Indent
  }

  /** The partner's template before lower-casing: the events line onwards. */
  function PartnerTextTail(p: Partner, lang: Language): string {
    Indent + Rendered(InitiativesIn(p, lang)) + "\n      "
  }

  /**
   * The lower-cased partner search text: name, description, expertise,
   * industry, events and initiatives in `lang`, one per template line.
   */
  function PartnerSearchText(p: Partner, lang: Language): string {
    Lower(PartnerTextHead(p, lang) + Rendered(EventsIn(p, lang)) + PartnerTextTail(p, lang))
  }

  /** The lower-cased member search text: `${name} ${role[lang]}`. */
  function MemberSearchText(m: TeamMember, lang: Language): string {
    Lower(m.name + " " + m.role.In(lang))
  }

  /** The `.some(word => searchText.includes(word))` callback of the partner filter. */
  function PartnerTest(tokens: seq<string>, lang: Language): Partner -> bool {
    p => Any(tokens, w => Includes(PartnerSearchText(p, lang), w))
  }

  /** The `.some(word => searchText.includes(word))` callback of the member filter. */
  function MemberTest(tokens: seq<string>, lang: Language): TeamMember -> bool {
    m => Any(tokens, w => Includes(MemberSearchText(m, lang), w))
  }

  /** `Object.values(teamMembers).flat()`: every member, category after category. */
  function AllMembers(kb: KnowledgeBase): seq<TeamMember> {
    Flat(Map(kb.teamMembers, (c: Category) => c.members))
  }

  /** `findRelevantEntities(query, lang)`. */
  function FindRelevantEntities(kb: KnowledgeBase, query: string, lang: Language): RelevantEntities {
    var tokens := QueryTokens(query);
    RelevantEntities(
      Map(Filter(kb.partners, PartnerTest(tokens, lang)), MapPartnerToEntity),
      Map(Filter(AllMembers(kb), MemberTest(tokens, lang)), MapTeamMemberToEntity))
  }

  /** The reference notion of relevance: some word of the query occurs in the text. */
  ghost predicate Relevant(text: string, query: string) {
    exists w :: w in QueryTokens(query) && Includes(text, w)
  }

  /** The partner filter callback decides exactly the reference relevance. */
  lemma PartnerTestIsRelevance(query: string, lang: Language, p: Partner)
    ensures PartnerTest(QueryTokens(query), lang)(p) <==> Relevant(PartnerSearchText(p, lang), query)
  {
    var tokens := QueryTokens(query);
    if Relevant(PartnerSearchText(p, lang), query) {
      var w :| w in tokens && Includes(PartnerSearchText(p, lang), w);
      var i :| 0 <= i < |tokens| && tokens[i] == w;
    }
  }

  /** The member filter callback decides exactly the reference relevance. */
  lemma MemberTestIsRelevance(query: string, lang: Language, m: TeamMember)
    ensures MemberTest(QueryTokens(query), lang)(m) <==> Relevant(MemberSearchText(m, lang), query)
  {
    var tokens := QueryTokens(query);
    if Relevant(MemberSearchText(m, lang), query) {
      var w :| w in tokens && Includes(MemberSearchText(m, lang), w);
      var i :| 0 <= i < |tokens| && tokens[i] == w;
    }
  }

  /**
   * A partner's entity is in `relatedPartners` when some query word occurs in
   * its search text, as many times as the partner is listed; every entity
   * there comes from such a partner; and the entities keep the partners' order.
   */
  lemma FindRelevantPartners(kb: KnowledgeBase, query: string, lang: Language)
    ensures var r := FindRelevantEntities(kb, query, lang).relatedPartners;
      && |r| <= |kb.partners|
      && (forall p :: p in kb.partners && Relevant(PartnerSearchText(p, lang), query) ==> MapPartnerToEntity(p) in r)
      && (forall p :: Relevant(PartnerSearchText(p, lang), query) ==> multiset(r)[MapPartnerToEntity(p)] >= multiset(kb.partners)[p])
      && (forall e :: e in r ==> exists p :: p in kb.partners && Relevant(PartnerSearchText(p, lang), query) && e == MapPartnerToEntity(p))
      && IsSubsequence(r, Map(kb.partners, MapPartnerToEntity))
  {
    var test := PartnerTest(QueryTokens(query), lang);
    FilterMapSpec(kb.partners, test, MapPartnerToEntity);
    forall p: Partner
      ensures test(p) <==> Relevant(PartnerSearchText(p, lang), query)
    {
      PartnerTestIsRelevance(query, lang, p);
    }
  }

  /**
   * A member's entity is in `relatedMembers` when some query word occurs in
   * its name and role, as many times as the member is listed; every entity
   * there comes from such a member; and the entities keep the
   * category-flattened member order.
   */
  lemma FindRelevantMembers(kb: KnowledgeBase, query: string, lang: Language)
    ensures var r := FindRelevantEntities(kb, query, lang).relatedMembers;
      && |r| <= |AllMembers(kb)|
      && (forall m :: m in AllMembers(kb) && Relevant(MemberSearchText(m, lang), query) ==> MapTeamMemberToEntity(m) in r)
      && (forall m :: Relevant(MemberSearchText(m, lang), query) ==> multiset(r)[MapTeamMemberToEntity(m)] >= multiset(AllMembers(kb))[m])
      && (forall e :: e in r ==> exists m :: m in AllMembers(kb) && Relevant(MemberSearchText(m, lang), query) && e == MapTeamMemberToEntity(m))
      && IsSubsequence(r, Map(AllMembers(kb), MapTeamMemberToEntity))
  {
    var test := MemberTest(QueryTokens(query), lang);
    FilterMapSpec(AllMembers(kb), test, MapTeamMemberToEntity);
    forall m: TeamMember
      ensures test(m) <==> Relevant(MemberSearchText(m, lang), query)
    {
      MemberTestIsRelevance(query, lang, m);
    }
  }

  /** The members searched are exactly those listed under some category. */
  lemma AllMembersSpec(kb: KnowledgeBase, m: TeamMember)
    ensures m in AllMembers(kb) <==> exists i :: 0 <= i < |kb.teamMembers| && m in kb.teamMembers[i].members
  {
    var values := Map(kb.teamMembers, (c: Category) => c.members);
    FlatMembers(values, m);
    if i :| 0 <= i < |kb.teamMembers| && m in kb.teamMembers[i].members {
      assert m in values[i];
    }
  }

  /** Categories declared earlier have their members searched, and returned, earlier. */
  lemma AllMembersInCategoryOrder(partners: seq<Partner>, a: seq<Category>, b: seq<Category>)
    ensures AllMembers(KnowledgeBase(partners, a + b))
         == AllMembers(KnowledgeBase(partners, a)) + AllMembers(KnowledgeBase(partners, b))
  {
    var f := (c: Category) => c.members;
    assert Map(a + b, f) == Map(a, f) + Map(b, f);
    FlatConcat(Map(a, f), Map(b, f));
  }

  /**
   * The query has an empty word exactly when it is empty, starts or ends
   * with a space, or holds two spaces in a row; no word holds a space; and
   * the words joined by spaces give back the lower-cased query.
   */
  lemma QueryTokensSpec(query: string)
    ensures "" in QueryTokens(query) <==>
      query == "" || query[0] == ' ' || query[|query| - 1] == ' ' || HasDoubleSep(query, ' ')
    ensures forall w :: w in QueryTokens(query) ==> ' ' !in w
    ensures Join(QueryTokens(query), " ") == Lower(query)
  {
    var low := Lower(query);
    SplitHasEmptyPiece(low, ' ');
    JoinSplit(low, ' ');
    if HasDoubleSep(query, ' ') {
      var i :| 0 <= i < |query| - 1 && query[i] == ' ' && query[i + 1] == ' ';
      assert low[i] == ' ' && low[i + 1] == ' ';
    }
    if HasDoubleSep(low, ' ') {
      var i :| 0 <= i < |low| - 1 && low[i] == ' ' && low[i + 1] == ' ';
      LowerKeepsSpaces(query, i);
      LowerKeepsSpaces(query, i + 1);
    }
    if query != "" {
      LowerKeepsSpaces(query, 0);
      LowerKeepsSpaces(query, |query| - 1);
    }
  }

  /**
   * An empty, leading, trailing or doubled space yields the empty word, which
   * occurs in every text: every partner and every member is returned.
   */
  lemma EmptyWordMatchesEverything(kb: KnowledgeBase, query: string, lang: Language)
    requires query == "" || query[0] == ' ' || query[|query| - 1] == ' ' || HasDoubleSep(query, ' ')
    ensures FindRelevantEntities(kb, query, lang).relatedPartners == Map(kb.partners, MapPartnerToEntity)
    ensures FindRelevantEntities(kb, query, lang).relatedMembers == Map(AllMembers(kb), MapTeamMemberToEntity)
  {
    var tokens := QueryTokens(query);
    QueryTokensSpec(query);
    var k :| 0 <= k < |tokens| && tokens[k] == "";
    forall i | 0 <= i < |kb.partners|
      ensures PartnerTest(tokens, lang)(kb.partners[i])
    {
      IncludesEmpty(PartnerSearchText(kb.partners[i], lang));
    }
    forall i | 0 <= i < |AllMembers(kb)|
      ensures MemberTest(tokens, lang)(AllMembers(kb)[i])
    {
      IncludesEmpty(MemberSearchText(AllMembers(kb)[i], lang));
    }
    FilterAll(kb.partners, PartnerTest(tokens, lang));
    FilterAll(AllMembers(kb), MemberTest(tokens, lang));
  }

  /** A query made of one word with no space and no upper-case letter has that word as its only token. */
  lemma SingleWordTokens(word: string)
    requires ' ' !in word
    requires forall i :: 0 <= i < |word| ==> !IsUpper(word[i])
    ensures QueryTokens(word) == [word]
  {
    assert Lower(word) == word;
    SplitJoin([word], ' ');
  }

  /**
   * A partner without collaborations, or whose collaborations list no
   * events, renders its events line as "undefined", so the query
   * "undefined" matches it in either language.
   */
  lemma AbsentEventsMatchUndefined(p: Partner, lang: Language)
    requires p.collaborations == None || p.collaborations.value.events == None
    ensures Relevant(PartnerSearchText(p, lang), "undefined")
  {
    var w := "undefined";
    SingleWordTokens(w);
    var head, tail := PartnerTextHead(p, lang), PartnerTextTail(p, lang);
    assert Rendered(EventsIn(p, lang)) == w;
    LowerConcat(head, w);
    LowerConcat(head + w, tail);
    assert Lower(w) == w;
    IncludesWithin(Lower(head), w, Lower(tail), w);
    assert w in QueryTokens(w);
  }

  /** A word that occurs in a partner's lower-cased name occurs in its search text. */
  lemma NameWordMatches(p: Partner, lang: Language, w: string)
    requires Includes(Lower(p.name.In(lang)), w)
    ensures Includes(PartnerSearchText(p, lang), w)
  {
    var head := PartnerTextHead(p, lang);
    var name := p.name.In(lang);
    var rest := head[|Indent| + |name|..] + Rendered(EventsIn(p, lang)) + PartnerTextTail(p, lang);
    assert head == Indent + name + head[|Indent| + |name|..];
    assert PartnerTextHead(p, lang) + Rendered(EventsIn(p, lang)) + PartnerTextTail(p, lang) == Indent + name + rest;
    LowerConcat(Indent, name);
    LowerConcat(Indent + name, rest);
    IncludesWithin(Lower(Indent), Lower(name), Lower(rest), w);
  }

  /** The words of the query "Sopra Steria stage". */
  lemma SopraSteriaQueryTokens()
    ensures QueryTokens("Sopra Steria stage") == ["sopra", "steria", "stage"]
  {
    var tokens := ["sopra", "steria", "stage"];
    assert Join(tokens, " ") == "sopra steria stage";
    assert Lower("Sopra Steria stage") == "sopra steria stage";
    SplitJoin(tokens, ' ');
  }

  /** A listed partner whose lower-cased name contains a query word is returned. */
  lemma PartnerFoundByName(kb: KnowledgeBase, query: string, lang: Language, p: Partner, w: string)
    requires p in kb.partners && w in QueryTokens(query)
    requires Includes(Lower(p.name.In(lang)), w)
    ensures MapPartnerToEntity(p) in FindRelevantEntities(kb, query, lang).relatedPartners
  {
    NameWordMatches(p, lang, w);
    FindRelevantPartners(kb, query, lang);
  }

  /** "sopra" occurs in Sopra Steria's lower-cased name. */
  lemma SopraInName()
    ensures Includes(Lower(SopraSteria.name.In(Fr)), "sopra")
  {
    assert Lower("Sopra Steria") == "sopra steria";
    assert "sopra" <= Lower(SopraSteria.name.In(Fr));
  }

  /** In any knowledge base listing Sopra Steria, the query "Sopra Steria stage" finds it by its name. */
  lemma SopraSteriaFound(kb: KnowledgeBase)
    requires SopraSteria in kb.partners
    ensures MapPartnerToEntity(SopraSteria) in FindRelevantEntities(kb, "Sopra Steria stage", Fr).relatedPartners
  {
    SopraSteriaQueryTokens();
    SopraInName();
    PartnerFoundByName(kb, "Sopra Steria stage", Fr, SopraSteria, "sopra");
  }

  /** CVEC lists initiatives but no events, so the query "undefined" finds it in either language. */
  lemma CvecMatchesUndefined(lang: Language)
    ensures Relevant(PartnerSearchText(Cvec, lang), "undefined")
  {
    AbsentEventsMatchUndefined(Cvec, lang);
  }
}
