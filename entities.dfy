/** The response-shaped entities the handler returns, and the mappers that build them from records. */
module Entities {
  import opened Wrappers
  import opened Knowledge
  import opened JsArray

  /** The kind tag of a link. */
  datatype LinkType = Website | LinkedIn | Twitter | Other

  /** A link shown with an entity. */
  datatype LinkData = LinkData(url: string, kind: LinkType, title: string)

  /** A partner as the chat response carries it (`type: 'partner'`). */
  datatype PartnerEntity = PartnerEntity(
    name: Localized,
    description: Localized,
    links: seq<LinkData>,
    expertise: Option<seq<string>>,
    industry: Option<seq<string>>,
    collaborations: Option<Collaborations>)

  /** A team member as the chat response carries it (`type: 'member'`). */
  datatype TeamMemberEntity = TeamMemberEntity(
    name: Localized,
    description: Localized,
    role: Localized,
    links: seq<LinkData>,
    task: Option<string>,
    year: Option<string>)

  /** An event as the chat response carries it. */
  datatype EventEntity = EventEntity(date: string, title: Localized, description: Localized)

  /** `s || ''` on an optional string: absent and empty both give the empty string. */
  function OrEmpty(s: Option<string>): string {
    match s
    case Some(v) => v
    case None => ""
  }

  /** The position of a link kind in a partner's link list. */
  function Rank(kind: LinkType): nat {
    match kind
    case Website => 0
    case LinkedIn => 1
    case Twitter => 2
    case Other => 3
  }

  /** The display title given to a link of each kind. */
  function TitleOf(kind: LinkType): string {
    match kind
    case Website => "Website"
    case LinkedIn => "LinkedIn"
    case Twitter => "Twitter"
    case Other => "Other"
  }

  /** The URL a partner record offers for a link kind (`''` when absent). */
  function UrlOf(p: Partner, kind: LinkType): string {
    match kind
    case Website => OrEmpty(p.website)
    case LinkedIn => if p.socialMedia.Some? then OrEmpty(p.socialMedia.value.linkedin) else ""
    case Twitter => if p.socialMedia.Some? then OrEmpty(p.socialMedia.value.twitter) else ""
    case Other => ""
  }

  /** The three candidate links, website then LinkedIn then Twitter, before empty ones are dropped. */
  function LinkCandidates(p: Partner): seq<LinkData> {
    [ LinkData(UrlOf(p, Website), Website, TitleOf(Website)),
      LinkData(UrlOf(p, LinkedIn), LinkedIn, TitleOf(LinkedIn)),
      LinkData(UrlOf(p, Twitter), Twitter, TitleOf(Twitter)) ]
  }

  /** Links with a non-empty URL survive the `filter(link => link.url)`. */
  predicate HasUrl(link: LinkData) {
    link.url != ""
  }

  /** A candidate link as a list of zero or one link, depending on its URL. */
  function Kept(link: LinkData): seq<LinkData> {
    if HasUrl(link) then [link] else []
  }

  /** The filter over the three candidates, written out. */
  lemma {:induction false} PartnerLinksUnfold(p: Partner)
    ensures var c := LinkCandidates(p);
      Filter(c, HasUrl) == Kept(c[0]) + Kept(c[1]) + Kept(c[2])
  {
    var c := LinkCandidates(p);
    assert c[1..][1..][1..] == [];
    assert Filter(c[1..][1..], HasUrl) == Kept(c[2]);
    assert Filter(c[1..], HasUrl) == Kept(c[1]) + Kept(c[2]);
  }

  /** Each kept link has a URL, the record's URL for its kind and its kind's title; the kinds rise strictly. */
  lemma KeptLinksShape(w: LinkData, l: LinkData, t: LinkData)
    requires Rank(w.kind) < Rank(l.kind) < Rank(t.kind)
    ensures var links := Kept(w) + Kept(l) + Kept(t);
      && |links| <= 3
      && (forall i :: 0 <= i < |links| ==> HasUrl(links[i]) && (links[i] == w || links[i] == l || links[i] == t))
      && (forall i, j :: 0 <= i < j < |links| ==> Rank(links[i].kind) < Rank(links[j].kind))
  {
    var links := Kept(w) + Kept(l) + Kept(t);
    if HasUrl(w) {
      if HasUrl(l) {
        if HasUrl(t) { assert links == [w, l, t]; } else { assert links == [w, l]; }
      } else {
        if HasUrl(t) { assert links == [w, t]; } else { assert links == [w]; }
      }
    } else {
      if HasUrl(l) {
        if HasUrl(t) { assert links == [l, t]; } else { assert links == [l]; }
      } else {
        if HasUrl(t) { assert links == [t]; } else { assert links == []; }
      }
    }
  }

  /** The filtered candidates: each kind at most once, in rank order, and only with a URL. */
  lemma PartnerLinksSpec(p: Partner)
    ensures var links := Filter(LinkCandidates(p), HasUrl);
      && |links| <= 3
      && (forall i :: 0 <= i < |links| ==>
            links[i].url != "" && links[i].url == UrlOf(p, links[i].kind) && links[i].title == TitleOf(links[i].kind))
      && (forall i, j :: 0 <= i < j < |links| ==> Rank(links[i].kind) < Rank(links[j].kind))
      && (forall kind :: (exists i :: 0 <= i < |links| && links[i].kind == kind) <==> UrlOf(p, kind) != "")
  {
    var c := LinkCandidates(p);
    PartnerLinksUnfold(p);
    KeptLinksShape(c[0], c[1], c[2]);
    var links := Filter(c, HasUrl);
    forall kind
      ensures (exists i :: 0 <= i < |links| && links[i].kind == kind) <==> UrlOf(p, kind) != ""
    {
      if UrlOf(p, kind) != "" {
        var x := if kind == Website then c[0] else if kind == LinkedIn then c[1] else c[2];
        assert x in Kept(x);
        assert x in links;
      }
    }
  }

  /**
   * `mapPartnerToEntity`: name, description and profile fields copied, and the
   * website, LinkedIn and Twitter links kept in that order when their URL is non-empty.
   */
  function MapPartnerToEntity(p: Partner): (e: PartnerEntity)
    ensures e.name == p.name && e.description == p.description
    ensures e.expertise == p.expertise && e.industry == p.industry && e.collaborations == p.collaborations
    ensures |e.links| <= 3
    ensures forall i :: 0 <= i < |e.links| ==>
      e.links[i].url != "" && e.links[i].url == UrlOf(p, e.links[i].kind) && e.links[i].title == TitleOf(e.links[i].kind)
    ensures forall i, j :: 0 <= i < j < |e.links| ==> Rank(e.links[i].kind) < Rank(e.links[j].kind)
    ensures forall kind :: (exists i :: 0 <= i < |e.links| && e.links[i].kind == kind) <==> UrlOf(p, kind) != ""
  {
    PartnerLinksSpec(p);
    PartnerEntity(p.name, p.description, Filter(LinkCandidates(p), HasUrl), p.expertise, p.industry, p.collaborations)
  }

  /**
   * `mapTeamMemberToEntity`: the plain name in both languages, the task (or
   * `''`) as the description in both languages, and one LinkedIn link exactly
   * when the member has a non-empty LinkedIn URL.
   */
  function MapTeamMemberToEntity(m: TeamMember): (e: TeamMemberEntity)
    ensures e.name.fr == m.name && e.name.en == m.name
    ensures e.description.fr == OrEmpty(m.task) && e.description.en == OrEmpty(m.task)
    ensures e.role == m.role && e.task == m.task && e.year == m.year
    ensures |e.links| <= 1
    ensures e.links == [] <==> OrEmpty(m.linkedin) == ""
    ensures forall i :: 0 <= i < |e.links| ==> e.links[i] == LinkData(OrEmpty(m.linkedin), LinkedIn, TitleOf(LinkedIn))
  {
    var task := OrEmpty(m.task);
    var linkedin := OrEmpty(m.linkedin);
    TeamMemberEntity(
      Localized(m.name, m.name),
      Localized(task, task),
      m.role,
      if linkedin != "" then [LinkData(linkedin, LinkedIn, "LinkedIn")] else [],
      m.task,
      m.year)
  }
}
