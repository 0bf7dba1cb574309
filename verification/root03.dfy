/**
  Template 03's landing page: which sections it shows and what it hands them.
  The GitHub and contact sections are gated on the portfolio's integrations
  switch and on a usable link; the about section gets the skills with
  image-icon skills first.
 */
module Root03 {
  import opened Wrappers
  import opened Seqs
  import opened Strings
  import opened Portfolio
  import opened Urls


  /**
    `extractGitHubUsername`: the first path segment of the link (read as an
    https address when it has no "http" prefix), or `null` for an empty link,
    an address the URL parser rejects, or a path with no segment.
   */
  function ExtractGitHubUsername(url: string, pathOf: PathOf): (r: Option<string>)
    ensures url == "" ==> r.None?
    ensures r.Some? ==> r.value != "" && !Contains(r.value, "/")
    ensures url != "" && pathOf(WithScheme(url)).None? ==> r.None?
    ensures url != "" && pathOf(WithScheme(url)).Some? ==> r == FirstSegment(pathOf(WithScheme(url)).value)
  {
    if url == "" then None
    else match pathOf(WithScheme(url))
      case None => None
      case Some(path) => FirstSegment(path)
  }

  /** The link is a GitHub link with integrations on: its title is exactly "github", ignoring case. */
  predicate GithubEntry(l: UserLink) {
    Lower(l.linkTitle) == "github" && l.integrationsEnabled
  }

  /** The link is a Cal.com link with integrations on: by title, or by "cal.com" in its address, ignoring case. */
  predicate CalEntry(l: UserLink) {
    l.integrationsEnabled && (Lower(l.linkTitle) == "cal.com" || Contains(Lower(l.linkUrl), "cal.com"))
  }

  /** `links?.find(test)?.linkUrl || ""`. */
  function FoundUrl(links: Option<seq<UserLink>>, test: UserLink -> bool): (r: string)
    ensures links.None? ==> r == ""
    ensures links.Some? && Find(test, links.value).Some? ==> r == Find(test, links.value).value.linkUrl
    ensures links.Some? && Find(test, links.value).None? ==> r == ""
  {
    match links
    case None => ""
    case Some(ls) =>
      match Find(test, ls)
      case None => ""
      case Some(l) => l.linkUrl
  }

  /** `extractCalcomLink`'s pair: the booking link and whether it is usable. */
  datatype CalLink = CalLink(calLink: string, isEnabled: bool)

  function ExtractCalcomLink(links: Option<seq<UserLink>>): (r: CalLink)
    ensures r.isEnabled <==> r.calLink != ""
    ensures r.calLink == FoundUrl(links, CalEntry)
    ensures r.isEnabled ==> links.Some? && exists i :: 0 <= i < |links.value| && CalEntry(links.value[i]) &&
                                                       links.value[i].linkUrl == r.calLink &&
                                                       forall j :: 0 <= j < i ==> !CalEntry(links.value[j])
  {
    var url := FoundUrl(links, CalEntry);
    CalLink(url, url != "")
  }

  // ---------------------------------------------------------------- skill order

  /** `a.icon?.startsWith("https")`: the skill's icon is an image address. */
  predicate UrlIcon(s: SkillItem) {
    s.icon.Some? && StartsWith(s.icon.value, "https")
  }

  predicate TextIcon(s: SkillItem) {
    !UrlIcon(s)
  }

  /**
    One step of a stable insertion sort under the comparator
    `(a, b) => key(b) - key(a)`: `s` goes before the first element that does
    not sort strictly ahead of it.
   */
  function Insert(s: SkillItem, sorted: seq<SkillItem>): (r: seq<SkillItem>)
    decreases |sorted|
  {
    if |sorted| == 0 || UrlIcon(s) || !UrlIcon(sorted[0]) then [s] + sorted
    else [sorted[0]] + Insert(s, sorted[1..])
  }

  /**
    `skillset.slice().sort(comparator)`: the engine's sort is stable, so the
    result is fixed by the comparator; it is computed here by insertion.
   */
  function SortSkills(xs: seq<SkillItem>): (r: seq<SkillItem>)
    decreases |xs|
  {
    if |xs| == 0 then [] else Insert(xs[0], SortSkills(xs[1..]))
  }

  /** Inserting a text-icon skill into a sorted list puts it after the image-icon skills. */
  lemma {:induction false} InsertText(s: SkillItem, a: seq<SkillItem>, b: seq<SkillItem>)
    requires TextIcon(s)
    requires forall i :: 0 <= i < |a| ==> UrlIcon(a[i])
    requires forall i :: 0 <= i < |b| ==> TextIcon(b[i])
    ensures Insert(s, a + b) == a + [s] + b
    decreases |a|
  {
    if |a| == 0 {
      assert a + b == b;
    } else {
      assert (a + b)[0] == a[0];
      assert (a + b)[1..] == a[1..] + b;
      InsertText(s, a[1..], b);
    }
  }

  /**
    The skill order the about section receives: every image-icon skill, in
    its original order, then every other skill, in its original order.
   */
  lemma {:induction false} SortSkillsPartition(xs: seq<SkillItem>)
    ensures SortSkills(xs) == Filter(UrlIcon, xs) + Filter(TextIcon, xs)
    decreases |xs|
  {
    if |xs| > 0 {
      SortSkillsPartition(xs[1..]);
      if UrlIcon(xs[0]) {
        PartitionUrlStep(xs);
      } else {
        PartitionTextStep(xs);
      }
    }
  }

  /** An image-icon skill at the front stays at the front. */
  lemma PartitionUrlStep(xs: seq<SkillItem>)
    requires |xs| > 0 && UrlIcon(xs[0])
    requires SortSkills(xs[1..]) == Filter(UrlIcon, xs[1..]) + Filter(TextIcon, xs[1..])
    ensures SortSkills(xs) == Filter(UrlIcon, xs) + Filter(TextIcon, xs)
  {
    SortUrlFront(xs);
    FilterStepUrl(xs);
    ConsAssoc(xs[0], Filter(UrlIcon, xs[1..]), Filter(TextIcon, xs[1..]));
  }

  lemma SortUrlFront(xs: seq<SkillItem>)
    requires |xs| > 0 && UrlIcon(xs[0])
    ensures SortSkills(xs) == [xs[0]] + SortSkills(xs[1..])
  {
  }

  lemma ConsAssoc(x: SkillItem, a: seq<SkillItem>, b: seq<SkillItem>)
    ensures [x] + (a + b) == ([x] + a) + b
  {
  }

  /** A text-icon skill at the front moves behind the image-icon skills. */
  lemma PartitionTextStep(xs: seq<SkillItem>)
    requires |xs| > 0 && TextIcon(xs[0])
    requires SortSkills(xs[1..]) == Filter(UrlIcon, xs[1..]) + Filter(TextIcon, xs[1..])
    ensures SortSkills(xs) == Filter(UrlIcon, xs) + Filter(TextIcon, xs)
  {
    SortUnfold(xs);
    InsertTextFiltered(xs[0], xs[1..]);
    FilterStepText(xs);
  }

  lemma InsertTextFiltered(x: SkillItem, ys: seq<SkillItem>)
    requires TextIcon(x)
    ensures Insert(x, Filter(UrlIcon, ys) + Filter(TextIcon, ys)) == Filter(UrlIcon, ys) + ([x] + Filter(TextIcon, ys))
  {
    var a := Filter(UrlIcon, ys);
    var b := Filter(TextIcon, ys);
    FilterSatisfies(UrlIcon, ys);
    FilterSatisfies(TextIcon, ys);
    InsertText(x, a, b);
    assert a + [x] + b == a + ([x] + b);
  }

  lemma SortUnfold(xs: seq<SkillItem>)
    requires |xs| > 0
    ensures SortSkills(xs) == Insert(xs[0], SortSkills(xs[1..]))
  {
  }

  /** How the two filters of a list start when its head has an image icon. */
  lemma FilterStepUrl(xs: seq<SkillItem>)
    requires |xs| > 0 && UrlIcon(xs[0])
    ensures Filter(UrlIcon, xs) == [xs[0]] + Filter(UrlIcon, xs[1..])
    ensures Filter(TextIcon, xs) == Filter(TextIcon, xs[1..])
  {
  }

  /** How the two filters of a list start when its head has a text icon. */
  lemma FilterStepText(xs: seq<SkillItem>)
    requires |xs| > 0 && TextIcon(xs[0])
    ensures Filter(UrlIcon, xs) == Filter(UrlIcon, xs[1..])
    ensures Filter(TextIcon, xs) == [xs[0]] + Filter(TextIcon, xs[1..])
  {
  }

  /** Sorting keeps every skill: the result is a permutation of the input. */
  lemma SortSkillsPermutes(xs: seq<SkillItem>)
    ensures multiset(SortSkills(xs)) == multiset(xs)
    ensures |SortSkills(xs)| == |xs|
  {
    SortSkillsPartition(xs);
    FilterComplementSize(UrlIcon, TextIcon, xs);
  }

  // ---------------------------------------------------------------- the page

  datatype Page =
    | Loading
    | Page(
        name: string,
        headerText: string,
        imageSrc: string,
        email: string,
        about: string,
        skills: seq<SkillItem>,
        github: Option<string>,
        contact: Option<string>)

  /**
    `RootPage03`: a loading line until the portfolio is there; then the
    sections, with the GitHub calendar for the username of the first
    integrated "github" link and the contact section for the first integrated
    Cal.com link, each only when the portfolio's integrations are on.
   */
  function RootPage03(data: Option<UserPortfolio>, pathOf: PathOf): (p: Page)
    ensures p.Loading? <==> data.None?
    ensures p.Page? ==> p.name == FullName(data.value)
    ensures p.Page? ==> p.headerText == data.value.headerText.GetOr("") &&
                        p.imageSrc == data.value.profileImage.GetOr("") &&
                        p.about == data.value.description.GetOr("")
    ensures p.Page? ==> p.skills == Filter(UrlIcon, data.value.skillset.GetOr([])) + Filter(TextIcon, data.value.skillset.GetOr([]))
    ensures p.Page? ==> (p.github.Some? <==> (data.value.integrationsEnabled &&
                                              ExtractGitHubUsername(FoundUrl(data.value.links, GithubEntry), pathOf).Some?))
    ensures p.Page? && p.github.Some? ==> p.github == ExtractGitHubUsername(FoundUrl(data.value.links, GithubEntry), pathOf)
    ensures p.Page? && p.github.Some? ==> p.github.value != "" && !Contains(p.github.value, "/")
    ensures p.Page? ==> p.email == data.value.email
    ensures p.Page? ==> (p.contact.Some? <==> data.value.integrationsEnabled && ExtractCalcomLink(data.value.links).isEnabled)
    ensures p.Page? && p.contact.Some? ==> p.contact.value == ExtractCalcomLink(data.value.links).calLink
  {
    match data
    case None => Loading
    case Some(d) =>
      var githubUrl := FoundUrl(d.links, GithubEntry);
      var username := if githubUrl != "" then ExtractGitHubUsername(githubUrl, pathOf) else None;
      var cal := ExtractCalcomLink(d.links);
      var skills := if d.skillset.Some? then SortSkills(d.skillset.value) else [];
      SortSkillsPartition(d.skillset.GetOr([]));
      Page(
        FullName(d),
        d.headerText.GetOr(""),
        d.profileImage.GetOr(""),
        d.email,
        d.description.GetOr(""),
        skills,
        if d.integrationsEnabled then username else None,
        if d.integrationsEnabled && cal.calLink != "" then Some(cal.calLink) else None)
  }
}
