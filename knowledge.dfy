/**
 * The association's static knowledge base: partner records and team
 * members grouped by category, read-only, in the order the source
 * declares them.
 */
module Knowledge {
  import opened Wrappers

  /** The two languages the site is written in. */
  datatype Language = Fr | En {
    /** The tag a request carries for this language. */
    function Tag(): string {
      match this
      case Fr => "fr"
      case En => "en"
    }
  }

  /** A text given in both languages. */
  datatype Localized = Localized(fr: string, en: string) {
    /** `field[lang]`. */
    function In(lang: Language): string {
      match lang
      case Fr => fr
      case En => en
    }
  }

  /** Past events and initiatives run with a partner; either list may be absent. */
  datatype Collaborations = Collaborations(
    events: Option<seq<Localized>>,
    initiatives: Option<seq<Localized>>)

  /** A partner's social-media profile URLs. */
  datatype SocialMedia = SocialMedia(linkedin: Option<string>, twitter: Option<string>)

  /** A partner record, restricted to the fields the chat handler reads. */
  datatype Partner = Partner(
    name: Localized,
    description: Localized,
    website: Option<string>,
    expertise: Option<seq<string>>,
    industry: Option<seq<string>>,
    collaborations: Option<Collaborations>,
    socialMedia: Option<SocialMedia>)

  /** A team member: a plain name, a localized role and optional profile data. */
  datatype TeamMember = TeamMember(
    name: string,
    role: Localized,
    year: Option<string>,
    linkedin: Option<string>,
    task: Option<string>)

  /** A labelled group of team members ("Bureau Restreint", "Membres Actifs", ...). */
  datatype Category = Category(key: string, members: seq<TeamMember>)

  /** Partners in declaration order, then the member categories in declaration order. */
  datatype KnowledgeBase = KnowledgeBase(partners: seq<Partner>, teamMembers: seq<Category>)

  // A few records of the real knowledge base, for concrete checks.

  const Cvec := Partner(
    Localized("CVEC", "CVEC"),
    Localized(
      "La Contribution de vie étudiante et de campus (CVEC) est destinée à favoriser l'accueil et l'accompagnement social, sanitaire, culturel et sportif des étudiants. Elle soutient les initiatives visant à améliorer les conditions de vie sur les campus.",
      "The Student and Campus Life Contribution (CVEC) is intended to promote social, health, cultural and sports support for students. It supports initiatives aimed at improving living conditions on campuses."),
    Some("https://cvec.etudiant.gouv.fr/"),
    Some(["student-support", "campus-life", "education-funding"]),
    Some(["education", "student-services"]),
    Some(Collaborations(
      None,
      Some([Localized("Programme de soutien aux étudiantes en ingénierie", "Support program for women engineering students")]))),
    Some(SocialMedia(Some("https://linkedin.com/company/cvec"), Some("https://twitter.com/cvec_fr"))))

  const SopraSteria := Partner(
    Localized("Sopra Steria", "Sopra Steria"),
    Localized(
      "Leader européen de la transformation digitale, proposant des services de conseil, solutions digitales et édition de logiciels. Sopra Steria accompagne ses clients dans leur transformation numérique et leur développement durable.",
      "European leader in digital transformation, offering consulting services, digital solutions and software publishing. Sopra Steria supports its clients in their digital transformation and sustainable development."),
    Some("https://www.soprasteria.com/"),
    Some(["digital-transformation", "consulting", "software-development"]),
    Some(["consulting", "technology", "software"]),
    Some(Collaborations(
      Some([Localized("Ateliers techniques", "Technical workshops")]),
      Some([Localized("Programme de coaching carrière", "Career coaching program")]))),
    Some(SocialMedia(Some("https://linkedin.com/company/soprasteria"), Some("https://twitter.com/soprasteria"))))

  const President := TeamMember(
    "RECHON-REGUET Emma", Localized("Présidente", "President"), Some("2023-2024"),
    Some("https://www.linkedin.com/in/emma-rechon-reguet-27964120a/"), None)

  const VicePresident := TeamMember(
    "FABRE Julie", Localized("Vice-Présidente", "Vice-President"), Some("2023-2024"),
    Some("https://www.linkedin.com/in/julie-fabre3/"), None)

  const ActiveMember := TeamMember(
    "BILLET Alise", Localized("Membre Actif", "Active Member"), Some("2023-2024"), None, None)

  const Sample := KnowledgeBase(
    [Cvec, SopraSteria],
    [Category("Bureau Restreint", [President, VicePresident]), Category("Membres Actifs", [ActiveMember])])
}
