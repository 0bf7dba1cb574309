/**
  The selectors the portfolio context offers its pages: each returns a slice
  of the fetched portfolio together with the template reference and the
  query's loading and error state, untouched.
 */
module Context {
  import opened Wrappers
  import opened Seqs
  import opened Portfolio

  /** The state of the portfolio query: the data once loaded, whether it is loading, and its error. */
  datatype Query = Query(data: Option<UserPortfolio>, isLoading: bool, error: Option<string>)

  /** What a `get*WithTemplate` selector returns. */
  datatype Selected<T> = Selected(data: Option<T>, template: Option<TemplateRef>, isLoading: bool, error: Option<string>)

  /** `portfolioData?.template`. */
  function TemplateOf(q: Query): (r: Option<TemplateRef>)
    ensures r.Some? ==> q.data.Some? && q.data.value.template == r
    ensures q.data.Some? ==> r == q.data.value.template
  {
    match q.data
    case None => None
    case Some(d) => d.template
  }

  /** `portfolioData?.<field>` for a list field that may itself be missing. */
  function Field<T>(q: Query, get: UserPortfolio -> Option<T>): (r: Option<T>)
    ensures q.data.None? ==> r.None?
    ensures q.data.Some? ==> r == get(q.data.value)
  {
    match q.data
    case None => None
    case Some(d) => get(d)
  }

  function ProjectsOf(d: UserPortfolio): Option<seq<Project>> { d.projects }
  function ExperienceOf(d: UserPortfolio): Option<seq<Experience>> { d.experience }
  function EventsOf(d: UserPortfolio): Option<seq<Event>> { d.events }

  /** `getAllDetailsWithTemplate()`: the query state itself. */
  function AllDetails(q: Query): (r: Query)
    ensures r.data == q.data && r.isLoading == q.isLoading && r.error == q.error
  {
    q
  }

  /** `getAllProjectsWithTemplate()`. */
  function AllProjects(q: Query): (r: Selected<seq<Project>>)
    ensures r.data.Some? <==> q.data.Some? && q.data.value.projects.Some?
    ensures r.data.Some? ==> r.data.value == q.data.value.projects.value
    ensures r.template == TemplateOf(q) && r.isLoading == q.isLoading && r.error == q.error
  {
    Selected(Field(q, ProjectsOf), TemplateOf(q), q.isLoading, q.error)
  }

  /** `getAllExperienceWithTemplate()`. */
  function AllExperience(q: Query): (r: Selected<seq<Experience>>)
    ensures r.data.Some? <==> q.data.Some? && q.data.value.experience.Some?
    ensures r.data.Some? ==> r.data.value == q.data.value.experience.value
    ensures r.template == TemplateOf(q) && r.isLoading == q.isLoading && r.error == q.error
  {
    Selected(Field(q, ExperienceOf), TemplateOf(q), q.isLoading, q.error)
  }

  /** `getAllEventsWithTemplate()`. */
  function AllEvents(q: Query): (r: Selected<seq<Event>>)
    ensures r.data.Some? <==> q.data.Some? && q.data.value.events.Some?
    ensures r.data.Some? ==> r.data.value == q.data.value.events.value
    ensures r.template == TemplateOf(q) && r.isLoading == q.isLoading && r.error == q.error
  {
    Selected(Field(q, EventsOf), TemplateOf(q), q.isLoading, q.error)
  }

  function ProjectHasId(id: string): Project -> bool {
    (p: Project) => p.id == id
  }

  function ExperienceHasId(id: string): Experience -> bool {
    (e: Experience) => e.id == id
  }

  /** `ps[i]` is the first element of `ps` with the given id. */
  predicate FirstProject(ps: seq<Project>, i: int, id: string) {
    0 <= i < |ps| && ps[i].id == id && forall j :: 0 <= j < i ==> ps[j].id != id
  }

  /** `es[i]` is the first element of `es` with the given id. */
  predicate FirstExperience(es: seq<Experience>, i: int, id: string) {
    0 <= i < |es| && es[i].id == id && forall j :: 0 <= j < i ==> es[j].id != id
  }

  /** `getProjectByIdWithTemplate(id)`: the first project with that id, if any; the template either way. */
  function ProjectById(q: Query, id: string): (r: Selected<Project>)
    ensures r.data.Some? ==> AllProjects(q).data.Some?
    ensures r.data.Some? ==> exists i :: FirstProject(AllProjects(q).data.value, i, id) &&
                                         AllProjects(q).data.value[i] == r.data.value
    ensures r.data.None? <==> (AllProjects(q).data.None? ||
                               forall j :: 0 <= j < |AllProjects(q).data.value| ==> AllProjects(q).data.value[j].id != id)
    ensures r.template == TemplateOf(q) && r.isLoading == q.isLoading && r.error == q.error
  {
    var ps := AllProjects(q).data;
    var found := if ps.None? then None else Find(ProjectHasId(id), ps.value);
    Selected(found, TemplateOf(q), q.isLoading, q.error)
  }

  /** `getExperienceByIdWithTemplate(id)`: the first experience with that id, if any; the template either way. */
  function ExperienceById(q: Query, id: string): (r: Selected<Experience>)
    ensures r.data.Some? ==> AllExperience(q).data.Some?
    ensures r.data.Some? ==> exists i :: FirstExperience(AllExperience(q).data.value, i, id) &&
                                         AllExperience(q).data.value[i] == r.data.value
    ensures r.data.None? <==> (AllExperience(q).data.None? ||
                               forall j :: 0 <= j < |AllExperience(q).data.value| ==> AllExperience(q).data.value[j].id != id)
    ensures r.template == TemplateOf(q) && r.isLoading == q.isLoading && r.error == q.error
  {
    var es := AllExperience(q).data;
    var found := if es.None? then None else Find(ExperienceHasId(id), es.value);
    Selected(found, TemplateOf(q), q.isLoading, q.error)
  }

  /**
    Looking up the id of the i-th project finds the first project carrying that
    id, which is the i-th one itself when ids are distinct.
   */
  lemma ProjectByOwnId(q: Query, i: nat)
    requires AllProjects(q).data.Some? && i < |AllProjects(q).data.value|
    requires forall a, b :: 0 <= a < b < |AllProjects(q).data.value| ==>
               AllProjects(q).data.value[a].id != AllProjects(q).data.value[b].id
    ensures ProjectById(q, AllProjects(q).data.value[i].id).data == Some(AllProjects(q).data.value[i])
  {
    var ps := AllProjects(q).data.value;
    var r := ProjectById(q, ps[i].id).data;
    assert r.Some? by {
      assert ps[i].id == ps[i].id;
    }
    var k :| FirstProject(ps, k, ps[i].id) && ps[k] == r.value;
  }
}
