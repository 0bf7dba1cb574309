/**
  The five route components that pick a template's page by the exact,
  case-sensitive name of the portfolio's template.
 */
module Dispatch {
  import opened Wrappers
  import opened Portfolio

  datatype Path = RootPath | ProjectsPath | ProjectPath | ExperiencesPath | ExperiencePath

  datatype TemplateKind = T03 | T04

  /** What a route renders: a template's page, nothing at all (`null`), or the "does not exist" message. */
  datatype Rendered = Page(kind: TemplateKind, route: Path) | Nothing | NotFound

  const Name03 := "template-03"
  const Name04 := "template-04"

  /** `portfolioData?.template?.name`. */
  function TemplateName(data: Option<UserPortfolio>): (r: Option<string>)
    ensures r.Some? <==> data.Some? && data.value.template.Some?
    ensures r.Some? ==> r.value == data.value.template.value.name
  {
    match data
    case None => None
    case Some(d) =>
      match d.template
      case None => None
      case Some(t) => Some(t.name)
  }

  /**
    The `switch (templateName)` of a route: "template-03" and "template-04"
    select that template's page, except that template 04 has no experience
    pages and renders nothing there; every other value, `undefined` included,
    gets the message.
   */
  function Switch(route: Path, name: Option<string>): (r: Rendered)
    ensures r.Page? ==> r.route == route
    ensures r == Page(T03, route) <==> name == Some(Name03)
    ensures r == Page(T04, route) <==> name == Some(Name04) && route !in {ExperiencesPath, ExperiencePath}
    ensures r == Nothing <==> name == Some(Name04) && route in {ExperiencesPath, ExperiencePath}
    ensures r == NotFound <==> name != Some(Name03) && name != Some(Name04)
  {
    if name == Some(Name03) then Page(T03, route)
    else if name == Some(Name04) then
      (if route == ExperiencesPath || route == ExperiencePath then Nothing else Page(T04, route))
    else NotFound
  }

  /** `RootPage`. */
  function RootPage(data: Option<UserPortfolio>): (r: Rendered)
    ensures r == Page(T03, RootPath) <==> TemplateName(data) == Some(Name03)
    ensures r == Page(T04, RootPath) <==> TemplateName(data) == Some(Name04)
    ensures r == NotFound <==> TemplateName(data) != Some(Name03) && TemplateName(data) != Some(Name04)
  {
    Switch(RootPath, TemplateName(data))
  }

  /** `ProjectsPage`. */
  function ProjectsPage(data: Option<UserPortfolio>): (r: Rendered)
    ensures r == Page(T03, ProjectsPath) <==> TemplateName(data) == Some(Name03)
    ensures r == Page(T04, ProjectsPath) <==> TemplateName(data) == Some(Name04)
    ensures r == NotFound <==> TemplateName(data) != Some(Name03) && TemplateName(data) != Some(Name04)
  {
    Switch(ProjectsPath, TemplateName(data))
  }

  /** `ProjectPage`. */
  function ProjectPage(data: Option<UserPortfolio>): (r: Rendered)
    ensures r == Page(T03, ProjectPath) <==> TemplateName(data) == Some(Name03)
    ensures r == Page(T04, ProjectPath) <==> TemplateName(data) == Some(Name04)
    ensures r == NotFound <==> TemplateName(data) != Some(Name03) && TemplateName(data) != Some(Name04)
  {
    Switch(ProjectPath, TemplateName(data))
  }

  /** `ExperiencesPage`: template 04 renders nothing. */
  function ExperiencesPage(data: Option<UserPortfolio>): (r: Rendered)
    ensures r == Page(T03, ExperiencesPath) <==> TemplateName(data) == Some(Name03)
    ensures r == Nothing <==> TemplateName(data) == Some(Name04)
    ensures r == NotFound <==> TemplateName(data) != Some(Name03) && TemplateName(data) != Some(Name04)
  {
    Switch(ExperiencesPath, TemplateName(data))
  }

  /** `ExperiencePage`: template 04 renders nothing. */
  function ExperiencePage(data: Option<UserPortfolio>): (r: Rendered)
    ensures r == Page(T03, ExperiencePath) <==> TemplateName(data) == Some(Name03)
    ensures r == Nothing <==> TemplateName(data) == Some(Name04)
    ensures r == NotFound <==> TemplateName(data) != Some(Name03) && TemplateName(data) != Some(Name04)
  {
    Switch(ExperiencePath, TemplateName(data))
  }

  /** The five routes as one table, so that properties across routes can be stated once. */
  function Render(route: Path, data: Option<UserPortfolio>): Rendered {
    match route
    case RootPath => RootPage(data)
    case ProjectsPath => ProjectsPage(data)
    case ProjectPath => ProjectPage(data)
    case ExperiencesPath => ExperiencesPage(data)
    case ExperiencePath => ExperiencePage(data)
  }

  /**
    All routes agree on whether the template exists: the message appears on one
    route exactly when it appears on every route, and a rendered page always
    belongs to the template the portfolio names.
   */
  lemma RoutesAgree(data: Option<UserPortfolio>, a: Path, b: Path)
    ensures Render(a, data) == NotFound <==> Render(b, data) == NotFound
    ensures Render(a, data).Page? ==>
              (Render(a, data).route == a &&
               TemplateName(data) == Some(if Render(a, data).kind == T03 then Name03 else Name04))
  {
  }

  /** Names are compared exactly: a differently cased name is not a template. */
  lemma CaseSensitive(route: Path)
    ensures Switch(route, Some("Template-03")) == NotFound
    ensures Switch(route, Some("template-3")) == NotFound
  {
  }
}
