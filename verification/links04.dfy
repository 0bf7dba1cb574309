/**
  Template 04's `ProjectLinks`: the live link and the repository link get
  their own slots; every other link follows in order. Links are told apart by
  identity, modelled here by their position in the list.
 */
module Links04 {
  import opened Wrappers
  import opened Seqs
  import opened Strings
  import opened Portfolio

  /** The title names a running site: it holds "live", "demo" or "website", ignoring case. */
  predicate LiveTitle(l: ProjectLink) {
    var t := Lower(l.linkTitle);
    Contains(t, "live") || Contains(t, "demo") || Contains(t, "website")
  }

  /** The title names a repository: it holds "github" or "repo", ignoring case. */
  predicate RepoTitle(l: ProjectLink) {
    var t := Lower(l.linkTitle);
    Contains(t, "github") || Contains(t, "repo")
  }

  datatype Links = Links(live: Option<nat>, github: Option<nat>, others: seq<nat>)

  /** The positions other than the two picked ones, in increasing order. */
  function OtherPositions(n: nat, live: Option<nat>, github: Option<nat>): (r: seq<nat>)
    ensures forall k :: 0 <= k < |r| ==> r[k] < n && Some(r[k]) != live && Some(r[k]) != github
    ensures forall i :: 0 <= i < n && Some(i) != live && Some(i) != github ==> i in r
    ensures forall a, b :: 0 <= a < b < |r| ==> r[a] < r[b]
    decreases n
  {
    if n == 0 then []
    else
      var rest := OtherPositions(n - 1, live, github);
      if Some(n - 1) != live && Some(n - 1) != github then rest + [n - 1] else rest
  }

  /**
    `ProjectLinks`: nothing for a missing or empty list; otherwise the first
    live-titled link, the first repository-titled link (with no fallback to
    the first link), and every link that is neither of those two.
   */
  function ProjectLinksView(links: Option<seq<ProjectLink>>): (r: Option<Links>)
    ensures r.None? <==> links.None? || links.value == []
    ensures r.Some? ==> r.value.live == FindIndex(LiveTitle, links.value)
    ensures r.Some? ==> r.value.github == FindIndex(RepoTitle, links.value)
    ensures r.Some? && r.value.live.None? ==> forall i :: 0 <= i < |links.value| ==> !LiveTitle(links.value[i])
    ensures r.Some? ==> forall k :: 0 <= k < |r.value.others| ==>
              r.value.others[k] < |links.value| && Some(r.value.others[k]) != r.value.live &&
              Some(r.value.others[k]) != r.value.github
    ensures r.Some? ==> r.value.others == OtherPositions(|links.value|, r.value.live, r.value.github)
    ensures r.Some? ==> forall a, b :: 0 <= a < b < |r.value.others| ==> r.value.others[a] < r.value.others[b]
  {
    match links
    case None => None
    case Some(xs) =>
      if xs == [] then None
      else
        var live := FindIndex(LiveTitle, xs);
        var github := FindIndex(RepoTitle, xs);
        Some(Links(live, github, OtherPositions(|xs|, live, github)))
  }

  /** Every link is rendered: in the live slot, in the repository slot, or among the others. */
  lemma EveryLinkRendered(xs: seq<ProjectLink>, i: nat)
    requires i < |xs|
    ensures var r := ProjectLinksView(Some(xs));
            r.Some? && (r.value.live == Some(i) || r.value.github == Some(i) || i in r.value.others)
  {
  }

  /** A link with a live title that is not the first one, and not the repository link, is listed among the others. */
  lemma LaterLiveLinkIsOther(xs: seq<ProjectLink>, i: nat, j: nat)
    requires j < i < |xs| && LiveTitle(xs[j]) && LiveTitle(xs[i]) && !RepoTitle(xs[i])
    ensures i in ProjectLinksView(Some(xs)).value.others
  {
    var live := FindIndex(LiveTitle, xs);
    var github := FindIndex(RepoTitle, xs);
    assert live != Some(i);
    assert github != Some(i);
  }
}
