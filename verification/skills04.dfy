/**
  Template 04's `Skills`: the skillset split into core skills and the rest,
  each group in its original order, with an empty state when there are none.
 */
module Skills04 {
  import opened Wrappers
  import opened Seqs
  import opened Strings
  import opened Portfolio

  /** A skill button: its name, and its icon when the icon address is truthy. */
  datatype Button = Button(id: string, name: string, icon: Option<string>)

  function ButtonOf(s: SkillItem): (b: Button)
    ensures b.id == s.id && b.name == s.skill.name
    ensures b.icon.Some? <==> Present(s.icon)
    ensures b.icon.Some? ==> b.icon == s.icon
  {
    Button(s.id, s.skill.name, if Present(s.icon) then s.icon else None)
  }

  predicate IsCore(s: SkillItem) { s.isCoreSkill }
  predicate IsOther(s: SkillItem) { !s.isCoreSkill }

  datatype Skills =
    | NoSkills   // "No skills to display"
    | Groups(
        core: Option<seq<Button>>,     // the "Core Skills" block, present only when there are core skills
        other: Option<seq<Button>>,    // the block of the rest, present only when there are other skills
        otherHeading: bool)            // whether that block is headed "Other Skills"

  /** `Skills`: the empty state for a missing or empty skillset; otherwise each non-empty group's block. */
  function SkillsView(skillset: Option<seq<SkillItem>>): (v: Skills)
    ensures v.NoSkills? <==> skillset.None? || skillset.value == []
    ensures v.Groups? ==> (v.core.Some? <==> exists i :: 0 <= i < |skillset.value| && skillset.value[i].isCoreSkill)
    ensures v.Groups? ==> (v.other.Some? <==> exists i :: 0 <= i < |skillset.value| && !skillset.value[i].isCoreSkill)
    ensures v.Groups? ==> v.core.Some? || v.other.Some?
    ensures v.Groups? && v.core.Some? ==> v.core.value == Map(ButtonOf, Filter(IsCore, skillset.value))
    ensures v.Groups? && v.other.Some? ==> v.other.value == Map(ButtonOf, Filter(IsOther, skillset.value))
    ensures v.Groups? ==> (v.otherHeading <==> v.core.Some? && v.other.Some?)
  {
    match skillset
    case None => NoSkills
    case Some(xs) =>
      if xs == [] then NoSkills
      else
        var core := Filter(IsCore, xs);
        var other := Filter(IsOther, xs);
        assert xs[0] in core || xs[0] in other;
        FilterNonEmpty(IsCore, xs);
        FilterNonEmpty(IsOther, xs);
        Groups(if core != [] then Some(Map(ButtonOf, core)) else None,
               if other != [] then Some(Map(ButtonOf, other)) else None,
               core != [] && other != [])
  }

  /** The two groups split the skillset: every skill lands in exactly one, and none is lost or repeated. */
  lemma SkillsPartition(xs: seq<SkillItem>)
    ensures |Filter(IsCore, xs)| + |Filter(IsOther, xs)| == |xs|
    ensures multiset(Filter(IsCore, xs)) + multiset(Filter(IsOther, xs)) == multiset(xs)
    ensures forall s :: s in Filter(IsCore, xs) ==> s !in Filter(IsOther, xs)
  {
    FilterComplementSize(IsCore, IsOther, xs);
  }
}
