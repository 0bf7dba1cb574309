/**
  `transformUserData`: the normalizer from the backend's `UserProfile` to the
  `PortfolioData` the classic template renders. Each list drops the entries whose
  primary field is empty and keeps the survivors in input order; missing strings
  become "". The year of a date string is left uninterpreted (`yearOf`).
 */
module Normalize {
  import opened Wrappers
  import opened Seqs
  import opened Strings
  import opened Profile

  /** `new Date(x).getFullYear().toString()`, whose calendar semantics the model does not fix. */
  type YearOf = string -> string

  /** The year of an optional date, or "" when the date is missing or empty. */
  function YearOrEmpty(yearOf: YearOf, d: Option<string>): string {
    if Present(d) then yearOf(d.value) else ""
  }

  predicate NonEmpty(x: string) {
    x != ""
  }

  // ---------------------------------------------------------------- skills

  /** `s.skill?.name`, with a missing name read as "" (both are falsy). */
  function SkillName(s: SkillRef): string {
    if s.skill.Some? && s.skill.value.name.Some? then s.skill.value.name.value else ""
  }

  predicate Named(s: SkillRef) {
    SkillName(s) != ""
  }

  /** `xs?.map(s => s.skill?.name).filter(Boolean) || []`. */
  function SkillNames(xs: Option<seq<SkillRef>>): (r: seq<string>)
    ensures xs.None? ==> r == []
    ensures forall i :: 0 <= i < |r| ==> r[i] != ""
    ensures xs.Some? ==> r == Map(SkillName, Filter(Named, xs.value))
  {
    match xs
    case None => []
    case Some(v) =>
      FilterMap(NonEmpty, SkillName, Named, v);
      var r := Filter(NonEmpty, Map(SkillName, v));
      assert forall i :: 0 <= i < |r| ==> r[i] in r;
      r
  }

  // ---------------------------------------------------------------- work

  function WorkOf(yearOf: YearOf, e: Experience): (r: Work)
    ensures r.company != "" <==> Present(e.companyName)
    ensures r.end.None? <==> !Present(e.endAt)
    ensures r.href == "" && r.badges == []
  {
    Work(
      company := Or(e.companyName, ""),
      title := Or(e.title, ""),
      href := "",
      logoUrl := Or(e.logoURL, ""),
      badges := [],
      start := YearOrEmpty(yearOf, e.startedAt),
      end := if Present(e.endAt) then Some(yearOf(e.endAt.value)) else None,
      description := Or(e.description, ""))
  }

  function WorkFn(yearOf: YearOf): Experience -> Work {
    e => WorkOf(yearOf, e)
  }

  predicate HasCompany(e: Experience) {
    Present(e.companyName)
  }

  predicate WorkKept(w: Work) {
    w.company != ""
  }

  /** `experience?.map(...).filter(w => w.company) || []`. */
  function WorkList(yearOf: YearOf, xs: Option<seq<Experience>>): (r: seq<Work>)
    ensures xs.None? ==> r == []
    ensures forall i :: 0 <= i < |r| ==> r[i].company != ""
    ensures xs.Some? ==> r == Map(WorkFn(yearOf), Filter(HasCompany, xs.value))
  {
    match xs
    case None => []
    case Some(v) =>
      FilterMap(WorkKept, WorkFn(yearOf), HasCompany, v);
      var r := Filter(WorkKept, Map(WorkFn(yearOf), v));
      assert forall i :: 0 <= i < |r| ==> r[i] in r;
      r
  }

  // ---------------------------------------------------------------- education

  function SchoolOf(yearOf: YearOf, e: Education): (r: School)
    ensures r.school != "" <==> Present(e.eduFrom)
    ensures !Present(e.endAt) ==> r.end == ""
  {
    School(
      school := Or(e.eduFrom, ""),
      degree := if e.degree.Some? then Or(e.degree.value.name, "") else "",
      href := Or(e.eduFromLink, ""),
      logoUrl := Or(e.logoURL, ""),
      start := YearOrEmpty(yearOf, e.startedAt),
      end := YearOrEmpty(yearOf, e.endAt))
  }

  function SchoolFn(yearOf: YearOf): Education -> School {
    e => SchoolOf(yearOf, e)
  }

  predicate HasSchool(e: Education) {
    Present(e.eduFrom)
  }

  predicate SchoolKept(s: School) {
    s.school != ""
  }

  /** `education?.map(...).filter(edu => edu.school) || []`. */
  function SchoolList(yearOf: YearOf, xs: Option<seq<Education>>): (r: seq<School>)
    ensures xs.None? ==> r == []
    ensures forall i :: 0 <= i < |r| ==> r[i].school != ""
    ensures xs.Some? ==> r == Map(SchoolFn(yearOf), Filter(HasSchool, xs.value))
  {
    match xs
    case None => []
    case Some(v) =>
      FilterMap(SchoolKept, SchoolFn(yearOf), HasSchool, v);
      var r := Filter(SchoolKept, Map(SchoolFn(yearOf), v));
      assert forall i :: 0 <= i < |r| ==> r[i] in r;
      r
  }

  // ---------------------------------------------------------------- projects

  /** One entry of `p.projectLinks`, before the filter on `href`. */
  function LinkOf(l: Link): (r: LinkOut)
    ensures r.kind == Or(l.linkTitle, "Website")
    ensures r.linkTitle == l.linkTitle
  {
    LinkOut(Or(l.linkTitle, "Website"), l.linkUrl.GetOr(""), l.linkTitle)
  }

  predicate HasUrl(l: Link) {
    Present(l.linkUrl)
  }

  predicate HasHref(o: LinkOut) {
    o.href != ""
  }

  /** The link `p.link` contributes at the front of a project's links. */
  function SiteLink(url: string): LinkOut {
    LinkOut("Website", url, Some("Website"))
  }

  /**
    A project's links: its own links that have a URL, in order, preceded by a
    "Website" link to `p.link` when that is set.
   */
  function ProjectLinks(p: Project): (r: seq<LinkOut>)
    ensures forall i :: 0 <= i < |r| ==> r[i].href != ""
    ensures Present(p.link) ==> |r| > 0 && r[0] == SiteLink(p.link.value)
    ensures var own := if Present(p.link) then r[1..] else r;
      own == Map(LinkOf, Filter(HasUrl, p.projectLinks.GetOr([])))
  {
    var raw := p.projectLinks.GetOr([]);
    FilterMap(HasHref, LinkOf, HasUrl, raw);
    var own := Filter(HasHref, Map(LinkOf, raw));
    assert forall i :: 0 <= i < |own| ==> own[i] in own;
    if Present(p.link) then [SiteLink(p.link.value)] + own else own
  }

  /** `${start ? year : ''} - ${end ? year : 'Present'}`. */
  function ProjectDates(yearOf: YearOf, startedAt: Option<string>, endAt: Option<string>): (r: string)
    ensures StartsWith(r, YearOrEmpty(yearOf, startedAt) + " - ")
    ensures !Present(endAt) ==> EndsWith(r, " - Present")
    ensures Present(endAt) ==> EndsWith(r, " - " + yearOf(endAt.value))
  {
    var head := YearOrEmpty(yearOf, startedAt) + " - ";
    var tail := if Present(endAt) then yearOf(endAt.value) else "Present";
    assert (head + tail)[..|head|] == head;
    assert (head + tail)[|head + tail| - |" - " + tail|..] == " - " + tail;
    head + tail
  }

  function ProjectOf(yearOf: YearOf, p: Project): (r: ProjectOut)
    ensures r.title != "" <==> Present(p.title)
    ensures r.links == ProjectLinks(p)
    ensures r.href == Or(p.link, "") && r.video == ""
    ensures r.technologies == SkillNames(if p.projectSkillset.Some? then p.projectSkillset else Some([]))
  {
    ProjectOut(
      title := Or(p.title, ""),
      description := Or(p.description, ""),
      dates := ProjectDates(yearOf, p.startedAt, p.endAt),
      technologies := SkillNames(Some(p.projectSkillset.GetOr([]))),
      image := Or(p.previewImageUrl, ""),
      video := "",
      links := ProjectLinks(p),
      href := Or(p.link, ""))
  }

  function ProjectFn(yearOf: YearOf): Project -> ProjectOut {
    p => ProjectOf(yearOf, p)
  }

  predicate HasTitle(p: Project) {
    Present(p.title)
  }

  predicate ProjectKept(p: ProjectOut) {
    p.title != ""
  }

  /** `projects?.map(...).filter(p => p.title) || []`. */
  function ProjectList(yearOf: YearOf, xs: Option<seq<Project>>): (r: seq<ProjectOut>)
    ensures xs.None? ==> r == []
    ensures forall i :: 0 <= i < |r| ==> r[i].title != ""
    ensures xs.Some? ==> r == Map(ProjectFn(yearOf), Filter(HasTitle, xs.value))
  {
    match xs
    case None => []
    case Some(v) =>
      FilterMap(ProjectKept, ProjectFn(yearOf), HasTitle, v);
      var r := Filter(ProjectKept, Map(ProjectFn(yearOf), v));
      assert forall i :: 0 <= i < |r| ==> r[i] in r;
      r
  }

  // ---------------------------------------------------------------- certificates

  /** A certificate's links: one link exactly when `c.link` is set. */
  function CertificateLinks(c: Certificate): (r: seq<LinkOut>)
    ensures |r| <= 1
    ensures |r| == 1 <==> Present(c.link)
    ensures |r| == 1 ==> r[0].href == c.link.value && r[0].kind == Or(c.linkName, "Open Link")
    ensures |r| == 1 ==> r[0].linkTitle == c.linkName
  {
    if Present(c.link) then [LinkOut(Or(c.linkName, "Open Link"), c.link.value, c.linkName)] else []
  }

  /** `${start ? year : ''}${end ? ` - ${year}` : ''}`. */
  function CertificateDates(yearOf: YearOf, startedAt: Option<string>, endAt: Option<string>): (r: string)
    ensures !Present(endAt) ==> r == YearOrEmpty(yearOf, startedAt)
    ensures Present(endAt) ==> r == YearOrEmpty(yearOf, startedAt) + " - " + yearOf(endAt.value)
  {
    YearOrEmpty(yearOf, startedAt) + (if Present(endAt) then " - " + yearOf(endAt.value) else "")
  }

  function HackathonOf(yearOf: YearOf, c: Certificate): (r: Hackathon)
    ensures r.title != "" <==> Present(c.title)
    ensures |r.links| <= 1
  {
    Hackathon(
      title := Or(c.title, ""),
      description := Or(c.description, ""),
      location := Or(c.location, ""),
      dates := CertificateDates(yearOf, c.startedAt, c.endAt),
      image := Or(c.logoURL, ""),
      links := CertificateLinks(c))
  }

  function HackathonFn(yearOf: YearOf): Certificate -> Hackathon {
    c => HackathonOf(yearOf, c)
  }

  predicate CertificateTitled(c: Certificate) {
    Present(c.title)
  }

  predicate HackathonKept(h: Hackathon) {
    h.title != ""
  }

  /** `certificates?.map(...).filter(h => h.title) || []`. */
  function HackathonList(yearOf: YearOf, xs: Option<seq<Certificate>>): (r: seq<Hackathon>)
    ensures xs.None? ==> r == []
    ensures forall i :: 0 <= i < |r| ==> r[i].title != "" && |r[i].links| <= 1
    ensures xs.Some? ==> r == Map(HackathonFn(yearOf), Filter(CertificateTitled, xs.value))
  {
    match xs
    case None => []
    case Some(v) =>
      FilterMap(HackathonKept, HackathonFn(yearOf), CertificateTitled, v);
      var r := Filter(HackathonKept, Map(HackathonFn(yearOf), v));
      assert forall i :: 0 <= i < |r| ==> r[i] in r;
      r
  }

  /** Missing end dates are rendered differently by each kind of entry. */
  lemma MissingEnd(yearOf: YearOf, e: Experience, d: Education, p: Project, c: Certificate)
    requires !Present(e.endAt) && !Present(d.endAt) && !Present(p.endAt) && !Present(c.endAt)
    ensures WorkOf(yearOf, e).end == None
    ensures SchoolOf(yearOf, d).end == ""
    ensures EndsWith(ProjectOf(yearOf, p).dates, "Present")
    ensures HackathonOf(yearOf, c).dates == YearOrEmpty(yearOf, c.startedAt)
  {
    var dates := ProjectOf(yearOf, p).dates;
    assert EndsWith(dates, " - Present");
    assert dates[|dates| - |"Present"|..] == dates[|dates| - |" - Present"|..][3..];
  }

  // ---------------------------------------------------------------- contact.social

  /** A link enters `contact.social` only when it has both a title and a URL. */
  predicate Qualifies(l: Link) {
    Present(l.linkTitle) && Present(l.linkUrl)
  }

  /** The key of a qualifying link: its lowercased title. */
  function KeyOf(l: Link): string
    requires Qualifies(l)
  {
    Lower(l.linkTitle.value)
  }

  function SocialOf(l: Link): (r: Social)
    requires Qualifies(l)
    ensures r.navbar
  {
    Social(l.linkTitle.value, l.linkUrl.value, true)
  }

  /** `m[k]` for an object with the given entries. */
  function Lookup(m: SocialMap, k: string): (r: Option<Social>)
    ensures r.None? <==> forall i :: 0 <= i < |m| ==> m[i].0 != k
    ensures r.Some? ==> exists i :: 0 <= i < |m| && m[i] == (k, r.value)
  {
    if |m| == 0 then None
    else if m[0].0 == k then Some(m[0].1)
    else Lookup(m[1..], k)
  }

  predicate UniqueKeys(m: SocialMap) {
    forall i, j :: 0 <= i < j < |m| ==> m[i].0 != m[j].0
  }

  /**
    `m[k] = v` on an object: an existing key keeps its position and takes the new
    value; a new key is appended.
   */
  function Put(m: SocialMap, k: string, v: Social): (r: SocialMap)
    requires UniqueKeys(m)
    ensures UniqueKeys(r)
    ensures Lookup(m, k).Some? ==> |r| == |m| && forall i :: 0 <= i < |m| ==> r[i].0 == m[i].0
    ensures Lookup(m, k).None? ==> r == m + [(k, v)]
    ensures Lookup(r, k) == Some(v)
    ensures forall k' :: k' != k ==> Lookup(r, k') == Lookup(m, k')
    decreases |m|
  {
    if |m| == 0 then [(k, v)]
    else if m[0].0 == k then
      PutHere(m, k, v);
      [(k, v)] + m[1..]
    else
      var rest := Put(m[1..], k, v);
      PutLater(m, k, v, rest);
      [m[0]] + rest
  }

  /** What `Put` promises, as one predicate for the two steps below. */
  ghost predicate PutSpec(m: SocialMap, k: string, v: Social, r: SocialMap) {
    && UniqueKeys(r)
    && (Lookup(m, k).Some? ==> |r| == |m| && forall i :: 0 <= i < |m| ==> r[i].0 == m[i].0)
    && (Lookup(m, k).None? ==> r == m + [(k, v)])
    && Lookup(r, k) == Some(v)
    && forall k' :: k' != k ==> Lookup(r, k') == Lookup(m, k')
  }

  /** The key is the first one: its entry takes the new value in place. */
  lemma PutHere(m: SocialMap, k: string, v: Social)
    requires UniqueKeys(m) && |m| > 0 && m[0].0 == k
    ensures PutSpec(m, k, v, [(k, v)] + m[1..])
  {
    var r := [(k, v)] + m[1..];
    assert r[1..] == m[1..];
    assert forall i :: 0 < i < |m| ==> m[i].0 != k;
  }

  /** The key is further on: the first entry stays in front of the rest's update. */
  lemma PutLater(m: SocialMap, k: string, v: Social, rest: SocialMap)
    requires UniqueKeys(m) && |m| > 0 && m[0].0 != k
    requires PutSpec(m[1..], k, v, rest)
    ensures PutSpec(m, k, v, [m[0]] + rest)
  {
    var r := [m[0]] + rest;
    RestAvoidsHead(m, k, v, rest);
    assert UniqueKeys(r) by {
      assert r[0] == m[0] && r[1..] == rest;
    }
    assert m == [m[0]] + m[1..];
    forall k' ensures Lookup(r, k') == if m[0].0 == k' then Some(m[0].1) else Lookup(rest, k') {
      LookupCons(m[0], rest, k');
    }
    forall k' ensures Lookup(m, k') == if m[0].0 == k' then Some(m[0].1) else Lookup(m[1..], k') {
      LookupCons(m[0], m[1..], k');
    }
    if Lookup(m, k).None? {
      assert m + [(k, v)] == [m[0]] + (m[1..] + [(k, v)]);
    }
  }

  /** The update of the rest never brings in the first entry's key. */
  lemma RestAvoidsHead(m: SocialMap, k: string, v: Social, rest: SocialMap)
    requires UniqueKeys(m) && |m| > 0 && m[0].0 != k
    requires PutSpec(m[1..], k, v, rest)
    ensures forall i :: 0 <= i < |rest| ==> rest[i].0 != m[0].0
  {
    forall i | 0 <= i < |rest|
      ensures rest[i].0 != m[0].0
    {
      if Lookup(m[1..], k).Some? {
        assert rest[i].0 == m[1..][i].0;
      } else if i == |m| - 1 {
        assert rest[i].0 == k;
      } else {
        assert rest[i] == m[1..][i];
      }
    }
  }

  /** Looking a key up in a list with an entry in front. */
  lemma LookupCons(e: (string, Social), t: SocialMap, k: string)
    ensures Lookup([e] + t, k) == if e.0 == k then Some(e.1) else Lookup(t, k)
  {
    assert ([e] + t)[1..] == t;
  }

  /** `links.forEach(link => { if (title && url) social[title.toLowerCase()] = {...} })`. */
  function BuildSocial(links: seq<Link>): (r: SocialMap)
    ensures UniqueKeys(r)
    ensures forall i :: 0 <= i < |r| ==> r[i].1.navbar
    decreases |links|
  {
    if |links| == 0 then []
    else
      var m := BuildSocial(links[..|links| - 1]);
      var l := links[|links| - 1];
      if Qualifies(l) then
        var r := Put(m, KeyOf(l), SocialOf(l));
        assert forall i :: 0 <= i < |r| ==> r[i].1.navbar by {
          forall i | 0 <= i < |r| ensures r[i].1.navbar {
            var k := r[i].0;
            assert Lookup(r, k).Some?;
            if k != KeyOf(l) {
              assert Lookup(m, k) == Lookup(r, k);
            }
            UniqueLookup(r, i);
          }
        }
        r
      else m
  }

  lemma UniqueLookup(m: SocialMap, i: nat)
    requires UniqueKeys(m) && i < |m|
    ensures Lookup(m, m[i].0) == Some(m[i].1)
  {
    var r := Lookup(m, m[i].0);
    var j :| 0 <= j < |m| && m[j] == (m[i].0, r.value);
  }

  /**
    The reference reading of the social map: the entry for key `k` comes from the
    last qualifying link whose lowercased title is `k`.
   */
  function LastSocial(links: seq<Link>, k: string): (r: Option<Social>)
    ensures r.None? <==> forall i :: 0 <= i < |links| ==> !(Qualifies(links[i]) && KeyOf(links[i]) == k)
    decreases |links|
  {
    if |links| == 0 then None
    else
      var l := links[|links| - 1];
      if Qualifies(l) && KeyOf(l) == k then Some(SocialOf(l))
      else
        var r := LastSocial(links[..|links| - 1], k);
        assert forall i :: 0 <= i < |links| - 1 ==> links[..|links| - 1][i] == links[i];
        r
  }

  /** A later link with the same lowercased title overwrites an earlier one. */
  lemma {:induction false} SocialIsLast(links: seq<Link>, k: string)
    ensures Lookup(BuildSocial(links), k) == LastSocial(links, k)
    decreases |links|
  {
    if |links| > 0 {
      SocialIsLast(links[..|links| - 1], k);
    }
  }

  /** The keys of `contact.social` are exactly the lowercased titles of the qualifying links. */
  lemma SocialKeys(links: seq<Link>, k: string)
    ensures (exists i :: 0 <= i < |BuildSocial(links)| && BuildSocial(links)[i].0 == k)
        <==> (exists i :: 0 <= i < |links| && Qualifies(links[i]) && KeyOf(links[i]) == k)
  {
    SocialIsLast(links, k);
  }

  // ---------------------------------------------------------------- name and initials

  /** A present string that does not start or end with whitespace. */
  predicate Tidy(x: Option<string>) {
    Present(x) && !IsSpace(x.value[0]) && !IsSpace(x.value[|x.value| - 1])
  }

  lemma TrimSpaceAfter(a: string)
    requires a != [] && !IsSpace(a[0]) && !IsSpace(a[|a| - 1])
    ensures Trim(a + " ") == a
  {
    var s := a + " ";
    assert TrimStart(s) == s;
    assert s[..|s| - 1] == a;
    assert TrimEnd(s) == TrimEnd(a);
  }

  lemma TrimSpaceBefore(b: string)
    requires b != [] && !IsSpace(b[0]) && !IsSpace(b[|b| - 1])
    ensures Trim(" " + b) == b
  {
    var s := " " + b;
    assert s[1..] == b;
    assert TrimStart(s) == TrimStart(b);
  }

  /** `${first || ''} ${last || ''}`.trim(). */
  function DisplayName(first: Option<string>, last: Option<string>): (r: string)
    ensures r != "" ==> !IsSpace(r[0]) && !IsSpace(r[|r| - 1])
    ensures !Present(first) && !Present(last) ==> r == ""
    ensures Tidy(first) && Tidy(last) ==> r == first.value + " " + last.value
    ensures Tidy(first) && !Present(last) ==> r == first.value
    ensures !Present(first) && Tidy(last) ==> r == last.value
  {
    NameCases(first, last);
    Trim(Or(first, "") + " " + Or(last, ""))
  }

  lemma NameCases(first: Option<string>, last: Option<string>)
    ensures var r := Trim(Or(first, "") + " " + Or(last, ""));
      && (!Present(first) && !Present(last) ==> r == "")
      && (Tidy(first) && Tidy(last) ==> r == first.value + " " + last.value)
      && (Tidy(first) && !Present(last) ==> r == first.value)
      && (!Present(first) && Tidy(last) ==> r == last.value)
  {
    var s := Or(first, "") + " " + Or(last, "");
    if !Present(first) && !Present(last) {
      assert s == " ";
      assert AllSpace(s);
    } else if Tidy(first) && Tidy(last) {
      assert s[0] == first.value[0];
      assert s[|s| - 1] == last.value[|last.value| - 1];
    } else if Tidy(first) && !Present(last) {
      assert s == first.value + " ";
      TrimSpaceAfter(first.value);
    } else if !Present(first) && Tidy(last) {
      assert s == " " + last.value;
      TrimSpaceBefore(last.value);
    }
  }

  /** `x?.[0] || ''`: the first character of a present, non-empty string. */
  function Head(x: Option<string>): (r: string)
    ensures |r| == (if Present(x) then 1 else 0)
  {
    if Present(x) then [x.value[0]] else ""
  }

  /** The uppercased first letters of the name parts that are present. */
  function Initials(first: Option<string>, last: Option<string>): (r: string)
    ensures |r| <= 2
    ensures |r| == (if Present(first) then 1 else 0) + (if Present(last) then 1 else 0)
    ensures Present(first) ==> r[0] == UpperChar(first.value[0])
    ensures Present(last) ==> r[|r| - 1] == UpperChar(last.value[0])
  {
    Upper(Head(first) + Head(last))
  }

  // ---------------------------------------------------------------- the whole profile

  /** `transformUserData`. */
  function TransformUserData(yearOf: YearOf, u: UserProfile): (r: PortfolioData)
    ensures r.username == u.userName
    ensures r.url == "" && r.location == "" && r.locationLink == "" && r.navbar == []
    ensures r.avatarUrl == Or(u.profileImage, "") && r.description == Or(u.headerText, "")
    ensures r.summary == Or(u.description, "") && r.contact.email == Or(u.email, "")
    ensures r.skills == SkillNames(u.skillset)
    ensures r.work == WorkList(yearOf, u.experience)
    ensures r.education == SchoolList(yearOf, u.education)
    ensures r.projects == ProjectList(yearOf, u.projects)
    ensures r.hackathons == HackathonList(yearOf, u.certificates)
    ensures r.initials == Initials(u.firstName, u.lastName)
    ensures Present(u.lastName) ==> r.initials[|r.initials| - 1] == UpperChar(u.lastName.value[0])
    ensures u.skillset.None? ==> r.skills == []
    ensures u.experience.None? ==> r.work == []
    ensures u.education.None? ==> r.education == []
    ensures u.projects.None? ==> r.projects == []
    ensures u.certificates.None? ==> r.hackathons == []
    ensures forall i :: 0 <= i < |r.work| ==> r.work[i].company != ""
    ensures forall i :: 0 <= i < |r.education| ==> r.education[i].school != ""
    ensures forall i :: 0 <= i < |r.projects| ==> r.projects[i].title != ""
    ensures forall i :: 0 <= i < |r.hackathons| ==> r.hackathons[i].title != ""
    ensures Tidy(u.firstName) && Tidy(u.lastName) ==> r.name == u.firstName.value + " " + u.lastName.value
    ensures !Present(u.firstName) && !Present(u.lastName) ==> r.name == "" && r.initials == ""
    ensures |r.initials| == (if Present(u.firstName) then 1 else 0) + (if Present(u.lastName) then 1 else 0)
    ensures Present(u.firstName) ==> r.initials[0] == UpperChar(u.firstName.value[0])
    ensures UniqueKeys(r.contact.social)
    ensures u.links.None? ==> r.contact.social == []
  {
    PortfolioData(
      username := u.userName,
      name := DisplayName(u.firstName, u.lastName),
      initials := Initials(u.firstName, u.lastName),
      url := "",
      location := "",
      locationLink := "",
      avatarUrl := Or(u.profileImage, ""),
      description := Or(u.headerText, ""),
      summary := Or(u.description, ""),
      navbar := [],
      skills := SkillNames(u.skillset),
      work := WorkList(yearOf, u.experience),
      education := SchoolList(yearOf, u.education),
      projects := ProjectList(yearOf, u.projects),
      hackathons := HackathonList(yearOf, u.certificates),
      contact := Contact(Or(u.email, ""), BuildSocial(u.links.GetOr([]))))
  }

  /**
    The contact map of a normalized profile answers every platform key with
    the last qualifying link whose lower-cased title is that key, and with
    nothing when there is none.
   */
  lemma ProfileSocial(yearOf: YearOf, u: UserProfile, k: string)
    ensures Lookup(TransformUserData(yearOf, u).contact.social, k) == LastSocial(u.links.GetOr([]), k)
  {
    SocialIsLast(u.links.GetOr([]), k);
  }
}
