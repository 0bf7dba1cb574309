/**
  The portfolio record the single-page templates (03 and 04) render, as the
  client fetches it. String fields the components only test for truthiness or
  search with `?.` are plain strings: on every path the components take, a
  `null` there behaves exactly like "". Fields the components default with
  `||`, `??` or guard with `?.` before use are `Option`.
 */
module Portfolio {
  import opened Wrappers
  import Strings

  datatype Skill = Skill(id: string, name: string)

  /** A `SkillsetItem` of the profile, or a project's `ProjectSkillset` (whose `isCoreSkill` is false). */
  datatype SkillItem = SkillItem(id: string, icon: Option<string>, color: Option<string>, isCoreSkill: bool, skill: Skill)

  datatype UserLink = UserLink(id: string, linkUrl: string, linkTitle: string, integrationsEnabled: bool)

  datatype ProjectLink = ProjectLink(id: string, linkUrl: string, linkTitle: string)

  /** A `ProjectKPI`; `type` is a Dafny keyword, hence `kind`. */
  datatype ProjectKPI = ProjectKPI(id: string, point: string, kind: string)

  datatype Project = Project(
    id: string,
    title: string,
    description: Option<string>,
    link: Option<string>,
    startedAt: Option<string>,
    previewImageUrl: Option<string>,
    timeline: Option<string>,
    role: Option<string>,
    team: Option<string>,
    status: Option<string>,
    projectLinks: Option<seq<ProjectLink>>,
    projectSkillset: Option<seq<SkillItem>>,
    projectKPI: Option<seq<ProjectKPI>>)

  datatype Experience = Experience(
    id: string,
    title: string,
    companyName: string,
    companyWebsite: Option<string>,
    description: Option<string>,
    startedAt: string,
    endAt: Option<string>,
    logoURL: Option<string>)

  datatype Event = Event(id: string, name: string, link: string, badge: string)

  datatype TemplateRef = TemplateRef(name: string)

  datatype UserPortfolio = UserPortfolio(
    id: string,
    userName: string,
    firstName: string,
    lastName: Option<string>,
    email: string,
    headerText: Option<string>,
    profileImage: Option<string>,
    description: Option<string>,
    template: Option<TemplateRef>,
    skillset: Option<seq<SkillItem>>,
    projects: Option<seq<Project>>,
    experience: Option<seq<Experience>>,
    links: Option<seq<UserLink>>,
    events: Option<seq<Event>>,
    integrationsEnabled: bool)

  /**
    `${firstName} ${lastName || ""}`: the display name both single-page
    templates build, untrimmed, so a missing last name leaves a trailing space.
   */
  function FullName(d: UserPortfolio): (r: string)
    ensures Strings.StartsWith(r, d.firstName + " ")
    ensures !Strings.Present(d.lastName) ==> r == d.firstName + " "
    ensures Strings.Present(d.lastName) ==> |r| == |d.firstName| + 1 + |d.lastName.value|
    ensures Strings.Present(d.lastName) ==> Strings.EndsWith(r, d.lastName.value)
  {
    d.firstName + " " + Strings.Or(d.lastName, "")
  }
}
