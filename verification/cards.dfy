/**
  The project card shared by templates 03 and 04: a status badge, the live and
  repository links picked from the project's links, a shortened plain-text
  description, at most two skill badges with a "+N more" counter, and a
  fallback gradient chosen from the title's character codes.
 */
module Cards {
  import opened Wrappers
  import opened Seqs
  import opened Strings
  import opened Portfolio
  import opened Html

  /** The colour family of a status badge. */
  datatype Tone = Green | Yellow | Blue | Red | Gray

  const DefaultStatus := "In Progress"
  const NoDescription := "No description available."
  const DescriptionCap := 75
  const BadgeCap := 2
  const GradientCount := 10

  /** `getStatusStyles` of the project card. */
  function CardTone(status: string): (r: Tone)
    ensures r == Green <==> status == "Completed"
    ensures r == Yellow <==> status == "In Progress"
    ensures r == Blue <==> status == "Planning"
    ensures r == Red <==> status == "On Hold"
  {
    match status
    case "Completed" => Green
    case "In Progress" => Yellow
    case "Planning" => Blue
    case "On Hold" => Red
    case _ => Gray
  }

  /** Each known status has its own colour; only unknown statuses share grey. */
  lemma CardToneDistinct(a: string, b: string)
    requires CardTone(a) == CardTone(b) && CardTone(a) != Gray
    ensures a == b
  {
  }

  /** `link?.linkUrl && link.linkUrl.trim() !== ""`. */
  predicate ValidLink(l: ProjectLink) {
    Trim(l.linkUrl) != ""
  }

  /** `(project.projectLinks || []).filter(valid)`. */
  function ValidLinks(links: Option<seq<ProjectLink>>): (r: seq<ProjectLink>)
    ensures links.None? ==> r == []
    ensures forall l :: l in r ==> links.Some? && l in links.value && Trim(l.linkUrl) != ""
    ensures links.Some? ==> forall i :: 0 <= i < |links.value| && ValidLink(links.value[i]) ==> links.value[i] in r
  {
    Filter(ValidLink, links.GetOr([]))
  }

  /** The link's title mentions a live site. */
  predicate LiveTitle(l: ProjectLink) {
    var t := Lower(l.linkTitle);
    Contains(t, "website") || Contains(t, "live") || Contains(t, "demo")
  }

  /** The link's title mentions GitHub. */
  predicate GithubTitle(l: ProjectLink) {
    Contains(Lower(l.linkTitle), "github")
  }

  /**
    `validLinks.find(live title) || validLinks[0]`: the first link titled as a
    live site, else the first valid link; there is one exactly when there is
    any valid link at all.
   */
  function LiveLink(valid: seq<ProjectLink>): (r: Option<ProjectLink>)
    ensures r.Some? <==> |valid| > 0
    ensures r.Some? ==> r.value in valid
    ensures r.Some? && !LiveTitle(r.value) ==> r.value == valid[0] &&
                                               forall i :: 0 <= i < |valid| ==> !LiveTitle(valid[i])
    ensures r.Some? && LiveTitle(r.value) ==> exists i :: 0 <= i < |valid| && valid[i] == r.value &&
                                                          forall j :: 0 <= j < i ==> !LiveTitle(valid[j])
  {
    match Find(LiveTitle, valid)
    case Some(l) => Some(l)
    case None => if |valid| > 0 then Some(valid[0]) else None
  }

  /** `validLinks.find(github title)`. */
  function GithubLink(valid: seq<ProjectLink>): (r: Option<ProjectLink>)
    ensures r.None? <==> forall i :: 0 <= i < |valid| ==> !GithubTitle(valid[i])
    ensures r.Some? ==> r.value in valid && GithubTitle(r.value)
    ensures r.Some? ==> exists i :: 0 <= i < |valid| && valid[i] == r.value &&
                                    forall j :: 0 <= j < i ==> !GithubTitle(valid[j])
  {
    Find(GithubTitle, valid)
  }

  /** `s.length > n ? s.slice(0, n) + "..." : s`. */
  function Shorten(s: string, n: nat): (r: string)
    ensures |s| <= n ==> r == s
    ensures |s| > n ==> |r| == n + 3 && r[..n] == s[..n] && r[n..] == "..."
    ensures |r| <= n + 3
  {
    if |s| > n then s[..n] + "..." else s
  }

  /** Shortening keeps the text's first characters, up to the cap. */
  lemma ShortenPrefix(s: string, n: nat)
    ensures StartsWith(Shorten(s, n), Take(s, n))
  {
  }

  /** The card's description: the markup stripped, shortened to 75 characters, or the placeholder when nothing is left. */
  function CardDescription(description: Option<string>): (r: string)
    ensures r != ""
    ensures Excludes(r, '<')
    ensures |r| <= DescriptionCap + 3 || r == NoDescription
    ensures StripHtml(description) == "" ==> r == NoDescription
    ensures StripHtml(description) != "" ==> StartsWith(r, Take(StripHtml(description), DescriptionCap))
    ensures StripHtml(description) != "" ==> r == Shorten(StripHtml(description), DescriptionCap)
  {
    var plain := StripHtml(description);
    ShortenPrefix(plain, DescriptionCap);
    var cut := Shorten(plain, DescriptionCap);
    assert Excludes(cut, '<') by {
      if |plain| > DescriptionCap {
        assert forall j :: 0 <= j < DescriptionCap ==> cut[j] == plain[j];
        assert cut[DescriptionCap..] == "...";
        assert forall j :: DescriptionCap <= j < |cut| ==> cut[j] == cut[DescriptionCap..][j - DescriptionCap];
      }
    }
    if plain == "" then NoDescription else cut
  }

  /** `title.split("").reduce((acc, c) => acc + c.charCodeAt(0), 0)`: the sum of the character codes. */
  function CodeSum(s: string): (r: nat)
    decreases |s|
  {
    if |s| == 0 then 0 else CodeSum(s[..|s| - 1]) + s[|s| - 1] as nat
  }

  /** The code sum of a concatenation is the sum of the parts' code sums. */
  lemma {:induction false} CodeSumAppend(a: string, b: string)
    ensures CodeSum(a + b) == CodeSum(a) + CodeSum(b)
    decreases |b|
  {
    if |b| == 0 {
      assert a + b == a;
    } else {
      assert (a + b)[..|a + b| - 1] == a + b[..|b| - 1];
      CodeSumAppend(a, b[..|b| - 1]);
    }
  }

  /** The fallback gradient's index: the code sum modulo the ten gradients. */
  function GradientOf(title: string): (r: nat)
    ensures r < GradientCount
  {
    CodeSum(title) % GradientCount
  }

  /** Titles that are rearrangements of the same two halves share a gradient. */
  lemma GradientSwap(a: string, b: string)
    ensures GradientOf(a + b) == GradientOf(b + a)
  {
    CodeSumAppend(a, b);
    CodeSumAppend(b, a);
  }

  /** The reduction as the component runs it: one pass over the characters. */
  method Gradient(title: string) returns (k: nat)
    ensures k == GradientOf(title)
    ensures k < GradientCount
  {
    var acc := 0;
    var i := 0;
    while i < |title|
      invariant 0 <= i <= |title|
      invariant acc == CodeSum(title[..i])
    {
      assert title[..i + 1][..i] == title[..i];
      acc := acc + title[i] as nat;
      i := i + 1;
    }
    assert title[..|title|] == title;
    k := acc % GradientCount;
  }

  /** The rendered project card. `year` is template 04's start year; template 03 shows none. */
  datatype Card = Card(
    image: Option<string>,
    gradient: nat,
    live: Option<ProjectLink>,
    github: Option<ProjectLink>,
    description: string,
    badges: Capped<SkillItem>,
    status: string,
    tone: Tone,
    year: Option<string>)

  /** Template 03's `ProjectCard`; template 04's adds only the start year. */
  function ProjectCard03(p: Project): (c: Card)
    ensures c.image.Some? <==> Present(p.previewImageUrl)
    ensures c.image.Some? ==> c.image.value == p.previewImageUrl.value
    ensures c.gradient == GradientOf(p.title) && c.gradient < GradientCount
    ensures c.live == LiveLink(ValidLinks(p.projectLinks))
    ensures c.github == GithubLink(ValidLinks(p.projectLinks))
    ensures c.live.Some? <==> |ValidLinks(p.projectLinks)| > 0
    ensures c.live.Some? ==> Trim(c.live.value.linkUrl) != ""
    ensures c.github.Some? ==> Trim(c.github.value.linkUrl) != "" && GithubTitle(c.github.value)
    ensures c.badges == Cap(p.projectSkillset.GetOr([]), BadgeCap)
    ensures c.description == CardDescription(p.description)
    ensures c.status != "" && (Present(p.status) ==> c.status == p.status.value)
    ensures !Present(p.status) ==> c.status == DefaultStatus
    ensures c.tone == CardTone(c.status)
    ensures c.year.None?
  {
    var valid := ValidLinks(p.projectLinks);
    var skills := p.projectSkillset.GetOr([]);
    var status := Or(p.status, DefaultStatus);
    Card(
      if Present(p.previewImageUrl) then Some(p.previewImageUrl.value) else None,
      GradientOf(p.title),
      LiveLink(valid),
      GithubLink(valid),
      CardDescription(p.description),
      Cap(skills, BadgeCap),
      status,
      CardTone(status),
      None)
  }

  /** Template 04's `ProjectCard`: the same card, plus the start year when a start date is set. */
  function ProjectCard04(yearOf: string -> string, p: Project): (c: Card)
    ensures c.year.Some? <==> Present(p.startedAt)
    ensures c.year.Some? ==> c.year.value == yearOf(p.startedAt.value)
    ensures c.(year := None) == ProjectCard03(p)
  {
    ProjectCard03(p).(year := if Present(p.startedAt) then Some(yearOf(p.startedAt.value)) else None)
  }
}
