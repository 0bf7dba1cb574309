/**
  The two shapes of a portfolio: the loosely typed `UserProfile` the backend
  returns and the `PortfolioData` the classic template renders. Every field the
  source reads with `||`, `?.` or a truthiness test is an `Option`, because the
  backend may leave it out.
 */
module Profile {
  import opened Wrappers

  // ---------------------------------------------------------------- UserProfile

  datatype Link = Link(linkUrl: Option<string>, linkTitle: Option<string>)

  datatype Skill = Skill(name: Option<string>)

  /** A `UserSkill` or a `ProjectSkill`: both wrap an optional `skill`. */
  datatype SkillRef = SkillRef(skill: Option<Skill>)

  datatype Project = Project(
    title: Option<string>,
    description: Option<string>,
    link: Option<string>,
    startedAt: Option<string>,
    endAt: Option<string>,
    previewImageUrl: Option<string>,
    projectLinks: Option<seq<Link>>,
    projectSkillset: Option<seq<SkillRef>>)

  datatype Experience = Experience(
    title: Option<string>,
    companyName: Option<string>,
    description: Option<string>,
    startedAt: Option<string>,
    endAt: Option<string>,
    logoURL: Option<string>)

  datatype Certificate = Certificate(
    title: Option<string>,
    description: Option<string>,
    link: Option<string>,
    startedAt: Option<string>,
    endAt: Option<string>,
    logoURL: Option<string>,
    location: Option<string>,
    linkName: Option<string>)

  datatype Degree = Degree(name: Option<string>)

  datatype Education = Education(
    eduFrom: Option<string>,
    eduFromLink: Option<string>,
    startedAt: Option<string>,
    endAt: Option<string>,
    logoURL: Option<string>,
    degree: Option<Degree>)

  datatype UserProfile = UserProfile(
    userName: string,
    firstName: Option<string>,
    lastName: Option<string>,
    email: Option<string>,
    profileImage: Option<string>,
    headerText: Option<string>,
    description: Option<string>,
    skillset: Option<seq<SkillRef>>,
    projects: Option<seq<Project>>,
    experience: Option<seq<Experience>>,
    links: Option<seq<Link>>,
    certificates: Option<seq<Certificate>>,
    education: Option<seq<Education>>)

  // ---------------------------------------------------------------- PortfolioData

  datatype Work = Work(
    company: string,
    title: string,
    href: string,
    logoUrl: string,
    badges: seq<string>,
    start: string,
    end: Option<string>,
    description: string)

  datatype School = School(
    school: string,
    degree: string,
    href: string,
    logoUrl: string,
    start: string,
    end: string)

  /** A `TransformedLink`; `type` is a Dafny keyword, hence `kind`. */
  datatype LinkOut = LinkOut(kind: string, href: string, linkTitle: Option<string>)

  datatype ProjectOut = ProjectOut(
    title: string,
    description: string,
    dates: string,
    technologies: seq<string>,
    image: string,
    video: string,
    links: seq<LinkOut>,
    href: string)

  datatype Hackathon = Hackathon(
    title: string,
    description: string,
    location: string,
    dates: string,
    image: string,
    links: seq<LinkOut>)

  /** A quick link of the classic template's navigation dock (`label` is a Dafny keyword, hence `caption`). */
  datatype NavItem = NavItem(href: string, caption: string)

  datatype Social = Social(name: string, url: string, navbar: bool)

  /** `contact.social` as its entries in insertion order, the order `Object.entries` reports. */
  type SocialMap = seq<(string, Social)>

  datatype Contact = Contact(email: string, social: SocialMap)

  datatype PortfolioData = PortfolioData(
    username: string,
    name: string,
    initials: string,
    url: string,
    location: string,
    locationLink: string,
    avatarUrl: string,
    description: string,
    summary: string,
    navbar: seq<NavItem>,
    skills: seq<string>,
    work: seq<Work>,
    education: seq<School>,
    projects: seq<ProjectOut>,
    hackathons: seq<Hackathon>,
    contact: Contact)
}
