/**
  Template 04's `ProjectMeta`: the timeline, role, team and status of a
  project, shown only when at least one of them holds more than whitespace.
 */
module Meta04 {
  import opened Wrappers
  import opened Strings
  import opened Cards

  /** `getStatusStyles` of this panel: three known statuses, grey for anything else. */
  function MetaTone(status: string): (t: Tone)
    ensures t == Green <==> status == "Completed"
    ensures t == Blue <==> status == "In Progress"
    ensures t == Yellow <==> status == "Planning"
    ensures t != Red
  {
    match status
    case "Completed" => Green
    case "In Progress" => Blue
    case "Planning" => Yellow
    case _ => Gray
  }

  /** The project card's colours and this panel's disagree for every known status but "Completed". */
  lemma TonesDiffer()
    ensures MetaTone("In Progress") != CardTone("In Progress")
    ensures MetaTone("Planning") != CardTone("Planning")
    ensures MetaTone("On Hold") == Gray && CardTone("On Hold") == Red
    ensures MetaTone("Completed") == CardTone("Completed")
  {
  }

  /** `[timeline, role, team, status].some(val => val != null && val.trim() !== "")`. */
  predicate HasData(timeline: Option<string>, role: Option<string>, team: Option<string>, status: Option<string>) {
    !Blank(timeline) || !Blank(role) || !Blank(team) || !Blank(status)
  }

  datatype Meta = Meta(timeline: Option<string>, role: Option<string>, team: Option<string>,
                       status: Option<(string, Tone)>)

  /** `value && <entry>`: an entry appears for a truthy value. */
  function Entry(x: Option<string>): (r: Option<string>)
    ensures r.Some? <==> Present(x)
    ensures r.Some? ==> r == x
  {
    if Present(x) then x else None
  }

  /**
    `ProjectMeta`: nothing when no field holds more than whitespace; otherwise
    an entry per truthy field, the status with its colour (a missing status
    would be styled as "In Progress", but then no status entry is shown).
   */
  function MetaView(timeline: Option<string>, role: Option<string>, team: Option<string>, status: Option<string>): (r: Option<Meta>)
    ensures r.None? <==> !HasData(timeline, role, team, status)
    ensures r.Some? ==> r.value.timeline == Entry(timeline) && r.value.role == Entry(role) && r.value.team == Entry(team)
    ensures r.Some? ==> (r.value.status.Some? <==> Present(status))
    ensures r.Some? && r.value.status.Some? ==> r.value.status.value == (status.value, MetaTone(status.value))
    ensures r.Some? ==> r.value.timeline.Some? || r.value.role.Some? || r.value.team.Some? || r.value.status.Some?
  {
    var tone := MetaTone(Or(status, DefaultStatus));
    if !HasData(timeline, role, team, status) then None
    else Some(Meta(Entry(timeline), Entry(role), Entry(team), if Present(status) then Some((status.value, tone)) else None))
  }
}
