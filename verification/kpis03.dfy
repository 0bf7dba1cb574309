/**
  Template 03's `ProjectKPIs`: key performance points grouped into the two
  kinds the panel knows, each column falling back to a placeholder line.
 */
module Kpis03 {
  import opened Wrappers
  import opened Seqs
  import opened Portfolio

  const Challenges := "Key Challenges"
  const Learnings := "Key Learnings"
  const NoChallenges := "No Key Challenges listed"
  const NoLearnings := "No Key Learnings listed"

  /** A column of the panel: the listed points, or the placeholder line. */
  datatype Column = Listed(points: seq<string>) | Placeholder(line: string)

  datatype Panel = Panel(challenges: Column, learnings: Column)

  predicate IsChallenge(k: ProjectKPI) { k.kind == Challenges }
  predicate IsLearning(k: ProjectKPI) { k.kind == Learnings }
  predicate IsOther(k: ProjectKPI) { !IsChallenge(k) && !IsLearning(k) }

  function Point(k: ProjectKPI): string { k.point }

  /** A column of the points of one kind, or the placeholder when there are none. */
  function ColumnOf(kpis: seq<ProjectKPI>, keep: ProjectKPI -> bool, placeholder: string): (c: Column)
    ensures c.Placeholder? <==> forall i :: 0 <= i < |kpis| ==> !keep(kpis[i])
    ensures c.Placeholder? ==> c.line == placeholder
    ensures c.Listed? ==> c.points == Map(Point, Filter(keep, kpis)) && c.points != []
  {
    var kept := Filter(keep, kpis);
    if kept == [] then
      Placeholder(placeholder)
    else
      assert kept[0] in kept;
      Listed(Map(Point, kept))
  }

  /** `ProjectKPIs`: nothing for a missing or empty list; otherwise both columns, always. */
  function ProjectKpis(kpis: Option<seq<ProjectKPI>>): (r: Option<Panel>)
    ensures r.None? <==> kpis.None? || kpis.value == []
    ensures r.Some? ==> (r.value.challenges.Placeholder? <==> forall i :: 0 <= i < |kpis.value| ==> kpis.value[i].kind != Challenges)
    ensures r.Some? ==> (r.value.learnings.Placeholder? <==> forall i :: 0 <= i < |kpis.value| ==> kpis.value[i].kind != Learnings)
    ensures r.Some? && r.value.challenges.Placeholder? ==> r.value.challenges.line == NoChallenges
    ensures r.Some? && r.value.learnings.Placeholder? ==> r.value.learnings.line == NoLearnings
    ensures r.Some? ==> r.value.challenges == ColumnOf(kpis.value, IsChallenge, NoChallenges)
    ensures r.Some? ==> r.value.learnings == ColumnOf(kpis.value, IsLearning, NoLearnings)
  {
    if kpis.None? || kpis.value == [] then None
    else Some(Panel(ColumnOf(kpis.value, IsChallenge, NoChallenges), ColumnOf(kpis.value, IsLearning, NoLearnings)))
  }

  /**
    Every point lands in at most one column: the challenges, the learnings and
    the points of any other kind (which the panel drops) account for the list.
   */
  lemma {:induction false} KpiPartition(kpis: seq<ProjectKPI>)
    ensures |Filter(IsChallenge, kpis)| + |Filter(IsLearning, kpis)| + |Filter(IsOther, kpis)| == |kpis|
    decreases |kpis|
  {
    if |kpis| > 0 {
      KpiPartition(kpis[1..]);
    }
  }

  /** A list of only the two known kinds is shown in full: no point is dropped. */
  lemma KnownKindsShown(kpis: seq<ProjectKPI>)
    requires forall i :: 0 <= i < |kpis| ==> !IsOther(kpis[i])
    ensures |Filter(IsChallenge, kpis)| + |Filter(IsLearning, kpis)| == |kpis|
  {
    KpiPartition(kpis);
    FilterNone(IsOther, kpis);
  }
}
