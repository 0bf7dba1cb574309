/**
  Template 04's `Projects` section: the first three projects, each with a logo
  or its title's initial, a shortened description and a preview (video or
  still image) in its hover card, and a "view all projects" button when there
  are more.
 */
module Projects04 {
  import opened Wrappers
  import opened Seqs
  import opened Strings
  import opened Portfolio
  import opened Cards

  const ShownCount := 3
  const SummaryCap := 85
  const DefaultImage := "/default.png"
  const NoLink := "#"
  const ProjectsRoute := "/projects/"

  /** The preview is played as a video when its address ends in a video extension. */
  predicate IsVideo(preview: string) {
    EndsWith(preview, ".mp4") || EndsWith(preview, ".webm") || EndsWith(preview, ".mov")
  }

  /** The hover card's media. */
  datatype Media = Video(src: string) | Still(src: string)

  function MediaOf(preview: string): (m: Media)
    ensures m.src == preview
    ensures m.Video? <==> IsVideo(preview)
  {
    if IsVideo(preview) then Video(preview) else Still(preview)
  }

  /** The round logo: the image, or the title's upper-cased initial. */
  datatype Emblem = Logo(src: string) | Letter(text: string)

  /** `logo && logo !== "/default.png" ? <img> : title.charAt(0).toUpperCase()`. */
  function EmblemOf(logo: string, title: string): (e: Emblem)
    ensures e.Logo? <==> logo != "" && logo != DefaultImage
    ensures e.Logo? ==> e.src == logo
    ensures e.Letter? ==> e.text == Initial(title)
  {
    if logo != "" && logo != DefaultImage then Logo(logo) else Letter(Initial(title))
  }

  /** An entry of the list. */
  datatype Item = Item(id: string, title: string, href: string, emblem: Emblem, preview: Media,
                       description: string, summary: string, route: string)

  /** `ProjectItem` with the props the section passes: missing values fall back to "#", "/default.png" and "". */
  function ItemOf(p: Project): (it: Item)
    ensures it.id == p.id && it.title == p.title
    ensures it.href == Or(p.link, NoLink) && it.href != ""
    ensures it.emblem.Letter? <==> !Present(p.previewImageUrl) || p.previewImageUrl.value == DefaultImage
    ensures it.emblem.Logo? ==> it.emblem.src == p.previewImageUrl.value
    ensures it.preview == MediaOf(Or(p.previewImageUrl, DefaultImage))
    ensures !Present(p.previewImageUrl) ==> it.preview == Still(DefaultImage)
    ensures it.description == Or(p.description, "")
    ensures it.summary == Shorten(it.description, SummaryCap)
    ensures it.route == ProjectsRoute + p.id
  {
    var media := Or(p.previewImageUrl, DefaultImage);
    var description := Or(p.description, "");
    Item(p.id, p.title, Or(p.link, NoLink), EmblemOf(media, p.title), MediaOf(media),
         description, Shorten(description, SummaryCap), ProjectsRoute + p.id)
  }

  /** The summary under a title never exceeds 88 characters and keeps the description's start. */
  lemma SummaryBounds(p: Project)
    ensures |ItemOf(p).summary| <= SummaryCap + 3
    ensures StartsWith(ItemOf(p).summary, Take(Or(p.description, ""), SummaryCap))
    ensures |Or(p.description, "")| <= SummaryCap ==> ItemOf(p).summary == Or(p.description, "")
  {
    ShortenPrefix(Or(p.description, ""), SummaryCap);
  }

  datatype Section = Section(items: seq<Item>, viewAll: bool)

  /** `Projects`: the first three entries, and the "view all" button exactly when there are more than three. */
  function ProjectsView(projects: Option<seq<Project>>): (s: Section)
    ensures |s.items| == Min(|projects.GetOr([])|, ShownCount)
    ensures forall i :: 0 <= i < |s.items| ==> s.items[i] == ItemOf(projects.value[i])
    ensures s.viewAll <==> |projects.GetOr([])| > ShownCount
  {
    var xs := projects.GetOr([]);
    Section(Map(ItemOf, Take(xs, ShownCount)), |xs| > ShownCount)
  }

  /** Every project is reachable: shown on the page, or behind the "view all" button. */
  lemma EveryProjectReachable(projects: seq<Project>, i: nat)
    requires i < |projects|
    ensures var s := ProjectsView(Some(projects));
            (i < |s.items| && s.items[i].id == projects[i].id) || s.viewAll
  {
  }

  /** `if (project.previewImageUrl)`: the project's preview is preloaded. */
  predicate HasPreview(p: Project) {
    Present(p.previewImageUrl)
  }

  /** `preloadMedia(preview)`: the preview, and whether a video element is made for it too. */
  function PreloadOf(p: Project): (string, bool) {
    var preview := p.previewImageUrl.GetOr("");
    (preview, IsVideo(preview))
  }

  /**
    What the section preloads, over all projects, as one pass of `forEach`:
    each truthy preview in order, and whether a video element is made for it too.
   */
  function Preloads(projects: seq<Project>): (r: seq<(string, bool)>)
    ensures |r| <= |projects|
    ensures forall i :: 0 <= i < |r| ==> r[i].0 != "" && r[i].1 == IsVideo(r[i].0)
    ensures |r| == |projects| <==> forall i :: 0 <= i < |projects| ==> Present(projects[i].previewImageUrl)
    decreases |projects|
  {
    if |projects| == 0 then []
    else
      var p := projects[0];
      var rest := Preloads(projects[1..]);
      assert forall i :: 1 <= i < |projects| ==> projects[i] == projects[1..][i - 1];
      if Present(p.previewImageUrl) then [(p.previewImageUrl.value, IsVideo(p.previewImageUrl.value))] + rest
      else rest
  }

  /** The preloads are exactly the truthy previews, one each, in the projects' order. */
  lemma {:induction false} PreloadsAreFiltered(projects: seq<Project>)
    ensures Preloads(projects) == Map(PreloadOf, Filter(HasPreview, projects))
    decreases |projects|
  {
    if |projects| > 0 {
      var p := projects[0];
      var tail := Filter(HasPreview, projects[1..]);
      PreloadsAreFiltered(projects[1..]);
      assert Filter(HasPreview, projects) == (if HasPreview(p) then [p] else []) + tail;
      if HasPreview(p) {
        assert Map(PreloadOf, [p] + tail) == [PreloadOf(p)] + Map(PreloadOf, tail);
      } else {
        assert [] + tail == tail;
      }
    }
  }
}
