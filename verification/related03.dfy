/**
  Template 03's "Related Projects" grid on the project detail page.
 */
module Related03 {
  import opened Wrappers
  import opened Seqs
  import opened Strings
  import opened Portfolio
  import opened Html
  import opened Cards

  const RelatedBadgeCap := 3

  /** One tile of the grid; `badge` is the status with its colour, shown only for a truthy status. */
  datatype Tile = Tile(id: string, title: string, badge: Option<(string, Tone)>, description: string, skills: Capped<SkillItem>)

  /** The tile a project gets. */
  function RelatedTile(p: Project): (t: Tile)
    ensures t.id == p.id && t.title == p.title
    ensures t.badge.Some? <==> Present(p.status)
    ensures t.badge.Some? ==> t.badge.value == (p.status.value, CardTone(p.status.value))
    ensures t.description == StripHtml(p.description)
    ensures Excludes(t.description, '<')
    ensures p.description.Some? && Excludes(p.description.value, '<') ==> t.description == p.description.value
    ensures t.skills == Cap(p.projectSkillset.GetOr([]), RelatedBadgeCap)
    ensures t.skills.shown == Take(p.projectSkillset.GetOr([]), RelatedBadgeCap)
    ensures t.skills.more.Some? ==> t.skills.more.value == |p.projectSkillset.value| - RelatedBadgeCap
    ensures |t.skills.shown| <= RelatedBadgeCap
    ensures t.skills.more.Some? <==> p.projectSkillset.Some? && |p.projectSkillset.value| > RelatedBadgeCap
  {
    Tile(
      p.id,
      p.title,
      if Present(p.status) then Some((p.status.value, CardTone(p.status.value))) else None,
      StripHtml(p.description),
      Cap(p.projectSkillset.GetOr([]), RelatedBadgeCap))
  }

  /** `RelatedProjects`: nothing for a missing or empty list, else one tile per project, in order. */
  function RelatedProjects(projects: Option<seq<Project>>): (r: Option<seq<Tile>>)
    ensures r.None? <==> projects.None? || projects.value == []
    ensures r.Some? ==> |r.value| == |projects.value| > 0
    ensures r.Some? ==> forall i :: 0 <= i < |r.value| ==> r.value[i] == RelatedTile(projects.value[i])
  {
    if projects.None? || projects.value == [] then None
    else Some(Map(RelatedTile, projects.value))
  }
}
