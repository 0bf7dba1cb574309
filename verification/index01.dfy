/**
  The classic template's page: the greeting, the about text, the work,
  education, skills, projects and achievements sections (each only when it has
  entries), and the contact line. Animation delays and the analytics event are
  not part of the model.
 */
module Index01 {
  import opened Wrappers
  import opened Seqs
  import opened Strings
  import opened Profile
  import Icons01
  import Navbar01
  import Normalize

  const Greeting := "Hi, I'm "
  const PeriodBreak := " - "
  const Ongoing := "Present"
  const MailScheme := "mailto:"
  const NoHref := "#"

  // ---------------------------------------------------------------- the greeting

  /** `name.split(" ")[0]`: the name up to its first space. */
  function FirstWord(name: string): (r: string)
    ensures |r| <= |name| && r == name[..|r|]
    ensures Excludes(r, ' ')
    ensures r == name || name[|r|] == ' '
  {
    SplitFirst(name, " ");
    var r := Split(name, " ")[0];
    ContainsChar(r, ' ');
    assert r != name ==> name[|r|..|r| + 1] == " ";
    r
  }

  /** A word without spaces followed by a space and anything else is the first word. */
  lemma FirstWordOf(first: string, rest: string)
    requires Excludes(first, ' ')
    ensures FirstWord(first + " " + rest) == first
  {
    var s := first + " " + rest;
    var r := FirstWord(s);
    assert s[|first|] == ' ';
    assert s[..|first|] == first;
  }

  /** The greeting for a name made of a space-free first name and a last name is that first name. */
  lemma GreetsFirstName(first: Option<string>, last: Option<string>)
    requires Normalize.Tidy(first) && Excludes(first.value, ' ')
    requires Normalize.Tidy(last) || !Present(last)
    ensures FirstWord(Normalize.DisplayName(first, last)) == first.value
  {
    if Present(last) {
      FirstWordOf(first.value, last.value);
    } else {
      assert Normalize.DisplayName(first, last) == first.value;
      ContainsChar(first.value, ' ');
      BeforeAbsent(first.value, " ");
    }
  }

  // ---------------------------------------------------------------- periods

  /** `${work.start} - ${work.end ?? "Present"}`: an empty end stays empty, only a missing one reads "Present". */
  function WorkPeriod(start: string, end: Option<string>): (r: string)
    ensures end.None? ==> r == start + PeriodBreak + Ongoing
    ensures end.Some? ==> r == start + PeriodBreak + end.value
  {
    start + PeriodBreak + end.GetOr(Ongoing)
  }

  /** `${education.start} - ${education.end}`: an empty end leaves a trailing " - ". */
  function EducationPeriod(start: string, end: string): (r: string)
    ensures end == "" ==> r == start + PeriodBreak
    ensures StartsWith(r, start + PeriodBreak) && |r| == |start| + |PeriodBreak| + |end|
  {
    var r := start + PeriodBreak + end;
    assert r[..|start + PeriodBreak|] == start + PeriodBreak;
    r
  }

  /** A start that neither holds " - " nor ends in " -": the first " - " of a period is the one the template adds. */
  predicate PlainStart(start: string) {
    !Contains(start, PeriodBreak) && !EndsWith(start, " -")
  }

  lemma BreakAfterStart(start: string, rest: string)
    requires PlainStart(start)
    ensures IndexOf(start + PeriodBreak + rest, PeriodBreak) == Some(|start|)
  {
    var s := start + PeriodBreak + rest;
    assert s[|start|..|start| + 3] == PeriodBreak;
    assert MatchAt(s, PeriodBreak, |start|);
    forall j | 0 <= j < |start|
      ensures !MatchAt(s, PeriodBreak, j)
    {
      NoBreakBefore(start, rest, j);
    }
  }

  /** No " - " of a period starts inside a plain start. */
  lemma NoBreakBefore(start: string, rest: string, j: nat)
    requires PlainStart(start) && j < |start|
    ensures !MatchAt(start + PeriodBreak + rest, PeriodBreak, j)
  {
    var s := start + PeriodBreak + rest;
    if j + 3 <= |start| {
      assert s[j..j + 3] == start[j..j + 3];
      assert !MatchAt(start, PeriodBreak, j);
    } else if j == |start| - 1 {
      assert s[j..j + 3][1] == ' ';
      assert PeriodBreak[1] == '-';
    } else {
      assert s[j..j + 3][..2] == start[|start| - 2..];
      assert PeriodBreak[..2] == " -";
      assert start[|start| - 2..] != " -";
    }
  }

  /** A period reads back as its start and its end: the text before and after the first " - ". */
  lemma PeriodRoundTrip(start: string, end: Option<string>)
    requires PlainStart(start)
    ensures Before(WorkPeriod(start, end), PeriodBreak) == start
    ensures After(WorkPeriod(start, end), PeriodBreak) == end.GetOr(Ongoing)
  {
    var s := WorkPeriod(start, end);
    BreakAfterStart(start, end.GetOr(Ongoing));
    assert s[..|start|] == start;
    assert s[|start| + |PeriodBreak|..] == end.GetOr(Ongoing);
  }

  // ---------------------------------------------------------------- the contact line

  /** `contact.email ? "mailto:" + email : "#"`. */
  function ContactHref(email: string): (r: string)
    ensures r != ""
    ensures email != "" ==> r == MailScheme + email
    ensures email == "" ==> r == NoHref
  {
    if email != "" then MailScheme + email else NoHref
  }

  /** The address a link writes to, if it is a mail link. */
  function MailOf(href: string): (r: Option<string>)
    ensures r.Some? ==> MailScheme + r.value == href
  {
    if StartsWith(href, MailScheme) then Some(href[|MailScheme|..]) else None
  }

  /** The contact link writes to the portfolio's address, and to none when there is none. */
  lemma ContactHrefRoundTrip(email: string)
    ensures MailOf(ContactHref(email)) == NonEmpty(email)
  {
    if email != "" {
      var h := MailScheme + email;
      assert h[..|MailScheme|] == MailScheme;
      assert h[|MailScheme|..] == email;
    } else {
      assert NoHref[0] != MailScheme[0];
    }
  }

  // ---------------------------------------------------------------- cards and sections

  /** A `ResumeCard` (`description` and `badges` only for work entries). */
  datatype Resume = Resume(title: string, subtitle: string, altText: string, href: string, logoUrl: string,
                           badges: seq<string>, period: string, description: Option<string>)

  function WorkCard(w: Work): (c: Resume)
    ensures c.title == w.company && c.altText == w.company && c.subtitle == w.title
    ensures c.period == WorkPeriod(w.start, w.end) && c.description == Some(w.description)
  {
    Resume(w.company, w.title, w.company, w.href, w.logoUrl, w.badges, WorkPeriod(w.start, w.end), Some(w.description))
  }

  function EducationCard(e: School): (c: Resume)
    ensures c.title == e.school && c.altText == e.school && c.subtitle == e.degree
    ensures c.period == EducationPeriod(e.start, e.end) && c.description.None? && c.badges == []
  {
    Resume(e.school, e.degree, e.school, e.href, e.logoUrl, [], EducationPeriod(e.start, e.end), None)
  }

  /** A link of a project or achievement with the icon its title selects. */
  datatype IconLink = IconLink(link: LinkOut, icon: Icons01.LinkIcon)

  function IconLinks(links: seq<LinkOut>): (r: seq<IconLink>)
    ensures |r| == |links|
    ensures forall i :: 0 <= i < |r| ==> r[i].link == links[i] && r[i].icon == Icons01.GetLinkIcon(links[i].linkTitle)
  {
    Map((l: LinkOut) => IconLink(l, Icons01.GetLinkIcon(l.linkTitle)), links)
  }

  datatype ProjectCard = ProjectCard(project: ProjectOut, links: seq<IconLink>)

  datatype HackathonCard = HackathonCard(hackathon: Hackathon, links: seq<IconLink>)

  /** `xs && xs.length > 0 && <section>`: a section exists only for a non-empty list. */
  function Section<T, U>(xs: seq<T>, card: T -> U): (r: Option<seq<U>>)
    ensures r.None? <==> xs == []
    ensures r.Some? ==> |r.value| == |xs| && forall i :: 0 <= i < |xs| ==> r.value[i] == card(xs[i])
  {
    if xs == [] then None else Some(Map(card, xs))
  }

  datatype Page = Page(
    navbar: Navbar01.Navbar,
    greeting: string,
    description: string,
    summary: string,
    work: Option<seq<Resume>>,
    education: Option<seq<Resume>>,
    skills: Option<seq<string>>,
    projects: Option<seq<ProjectCard>>,
    hackathons: Option<seq<HackathonCard>>,
    hackathonCount: nat,
    contactHref: string)

  /** `Template01`: the page for a transformed portfolio. */
  function Template01(d: PortfolioData): (p: Page)
    ensures p.navbar == Navbar01.NavbarView(d)
    ensures p.greeting == Greeting + FirstWord(d.name)
    ensures p.work.Some? <==> d.work != []
    ensures p.education.Some? <==> d.education != []
    ensures p.skills.Some? <==> d.skills != []
    ensures p.projects.Some? <==> d.projects != []
    ensures p.hackathons.Some? <==> d.hackathons != []
    ensures p.description == d.description && p.summary == d.summary
    ensures p.work == Section(d.work, WorkCard)
    ensures p.education == Section(d.education, EducationCard)
    ensures p.skills.Some? ==> p.skills.value == d.skills
    ensures p.projects.Some? ==> |p.projects.value| == |d.projects|
    ensures p.projects.Some? ==> forall i :: 0 <= i < |d.projects| ==>
              p.projects.value[i] == ProjectCard(d.projects[i], IconLinks(d.projects[i].links))
    ensures p.hackathons.Some? ==> |p.hackathons.value| == |d.hackathons|
    ensures p.hackathons.Some? ==> forall i :: 0 <= i < |d.hackathons| ==>
              p.hackathons.value[i] == HackathonCard(d.hackathons[i], IconLinks(d.hackathons[i].links))
    ensures p.hackathonCount == |d.hackathons|
    ensures p.hackathons.Some? ==> p.hackathonCount == |p.hackathons.value|
    ensures p.contactHref == ContactHref(d.contact.email)
    ensures MailOf(p.contactHref) == NonEmpty(d.contact.email)
  {
    ContactHrefRoundTrip(d.contact.email);
    Page(
      Navbar01.NavbarView(d),
      Greeting + FirstWord(d.name),
      d.description,
      d.summary,
      Section(d.work, WorkCard),
      Section(d.education, EducationCard),
      Section(d.skills, (s: string) => s),
      Section(d.projects, (p: ProjectOut) => ProjectCard(p, IconLinks(p.links))),
      Section(d.hackathons, (h: Hackathon) => HackathonCard(h, IconLinks(h.links))),
      |d.hackathons|,
      ContactHref(d.contact.email))
  }
}
