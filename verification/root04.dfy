/**
  Template 04's landing page: a loading line, an error line, or the sections
  with the contact section at the bottom. The page works out the contact
  section's name, initials and booking link itself.
 */
module Root04 {
  import opened Wrappers
  import opened Seqs
  import opened Strings
  import opened Portfolio
  import opened Context
  import opened Contact

  /** The text that marks a link as a Cal.com link for `find`. */
  const CalHost := "cal.com"

  // ---------------------------------------------------------------- the booking link

  /** No character of `s` ends a line. */
  predicate OneLine(s: string) {
    forall k :: 0 <= k < |s| ==> !IsLineTerminator(s[k])
  }

  /** The longest prefix of `t` without a line terminator: what the regular expression `.+` consumes. */
  function LineOf(t: string): (r: string)
    ensures |r| <= |t| && r == t[..|r|]
    ensures OneLine(r)
    ensures r == t || IsLineTerminator(t[|r|])
  {
    match FindIndex(IsLineTerminator, t)
    case None => t
    case Some(i) => t[..i]
  }

  /**
    The capture of `/cal\.com\/(.+)/` tried from index `j` on: the first
    occurrence of "cal.com/" followed by a character that does not end a line
    yields the rest of that line; an occurrence with nothing usable after it is
    skipped and the search goes on.
   */
  function CalMatchFrom(s: string, j: nat): (r: Option<string>)
    ensures r.Some? ==> r.value != "" && OneLine(r.value)
    ensures (forall k :: j <= k ==> !MatchAt(s, CalMarker, k)) ==> r.None?
    decreases |s| - j
  {
    if j + |CalMarker| >= |s| then None
    else if MatchAt(s, CalMarker, j) && !IsLineTerminator(s[j + |CalMarker|]) then
      Some(LineOf(s[j + |CalMarker|..]))
    else CalMatchFrom(s, j + 1)
  }

  /** `s.match(/cal\.com\/(.+)/)?.[1]`. */
  function CalMatch(s: string): (r: Option<string>)
    ensures r.Some? ==> r.value != "" && OneLine(r.value)
    ensures !Contains(s, CalMarker) ==> r.None?
  {
    CalMatchFrom(s, 0)
  }

  /**
    For a one-line address the capture is everything after the first
    "cal.com/", as long as something follows it.
   */
  lemma CalMatchAfter(s: string)
    requires OneLine(s) && Contains(s, CalMarker) && After(s, CalMarker) != ""
    ensures CalMatch(s) == Some(After(s, CalMarker))
  {
    var i := IndexOf(s, CalMarker).value;
    var t := s[i + |CalMarker|..];
    assert t == After(s, CalMarker);
    forall k | 0 <= k < |t|
      ensures !IsLineTerminator(t[k])
    {
      assert t[k] == s[i + |CalMarker| + k];
    }
    assert CalMatchFrom(s, i) == Some(After(s, CalMarker));
    CalMatchReaches(s, 0, i);
  }

  /** The search does reach the first occurrence: it cannot stop early with nothing found. */
  lemma {:induction false} CalMatchReaches(s: string, j: nat, i: nat)
    requires j <= i && i + |CalMarker| < |s| && forall k :: j <= k < i ==> !MatchAt(s, CalMarker, k)
    ensures CalMatchFrom(s, j) == CalMatchFrom(s, i)
    decreases i - j
  {
    if j < i {
      CalMatchReaches(s, j + 1, i);
    }
  }

  /** `link.linkUrl.includes("cal.com")`. */
  predicate CalUrl(l: UserLink) {
    Contains(l.linkUrl, CalHost)
  }

  /**
    The booking link the page hands its contact section: the capture after
    "cal.com/" in the first link mentioning "cal.com", else the username.
   */
  function CalLinkOf(d: UserPortfolio): (r: string)
    ensures d.links.None? || Find(CalUrl, d.links.value).None? ==> r == d.userName
    ensures d.links.Some? && Find(CalUrl, d.links.value).Some? ==>
              r == CalMatch(Find(CalUrl, d.links.value).value.linkUrl).GetOr(d.userName)
    ensures r == d.userName || r != ""
  {
    match d.links
    case None => d.userName
    case Some(ls) =>
      match Find(CalUrl, ls)
      case None => d.userName
      case Some(l) => CalMatch(l.linkUrl).GetOr(d.userName)
  }

  /** A one-line "https://cal.com/<name>" link as the first Cal.com link books `<name>`. */
  lemma CalLinkOfBookingUrl(d: UserPortfolio, name: string)
    requires d.links.Some? && |d.links.value| > 0
    requires d.links.value[0].linkUrl == "https://" + CalMarker + name
    requires name != "" && OneLine(name)
    ensures CalLinkOf(d) == name
  {
    var u := "https://" + CalMarker + name;
    assert MatchAt(u, CalHost, 8) by {
      assert u[8..8 + |CalHost|] == CalHost;
    }
    assert MatchAt(u, CalMarker, 8) by {
      assert u[8..8 + |CalMarker|] == CalMarker;
    }
    assert u[8 + |CalMarker|..] == name;
    assert OneLine(u) by {
      forall k | 0 <= k < |u|
        ensures !IsLineTerminator(u[k])
      {
        if k >= 8 + |CalMarker| {
          assert u[k] == name[k - (8 + |CalMarker|)];
        }
      }
    }
    forall k | 0 <= k < 8
      ensures !MatchAt(u, CalMarker, k)
    {
      assert u[k..k + |CalMarker|][0] == u[k];
      if k != 8 - |"cal"| {
        assert u[k..k + |CalMarker|][3] == u[k + 3];
      }
    }
    assert Find(CalUrl, d.links.value) == Some(d.links.value[0]);
    CalMatchReaches(u, 0, 8);
  }

  // ---------------------------------------------------------------- the initials

  /**
    `firstName[0] + (lastName?.[0] || "")` as the engine evaluates it: indexing
    "" gives `undefined`, which `+` turns into the text "undefined".
   */
  function InitialsAsWritten(firstName: string, lastName: Option<string>): (r: string)
    ensures firstName != "" ==> 1 <= |r| <= 2 && r[0] == firstName[0]
    ensures firstName == "" ==> StartsWith(r, "undefined")
  {
    (if firstName == "" then "undefined" else [firstName[0]]) +
    (if Present(lastName) then [lastName.value[0]] else "")
  }

  /** A visitor with no first name gets the word "undefined" on the avatar disc. */
  lemma InitialsAsWrittenShowsUndefined()
    ensures InitialsAsWritten("", None) == "undefined"
    ensures ContactAvatar(None, Some(" "), Some(InitialsAsWritten("", None))) == Initials("undefined")
  {
  }

  /**
    The initials as evidently intended: the first character of each name that
    is there, so a missing first name leaves the disc to its "U" default.
   */
  function InitialsOf(firstName: string, lastName: Option<string>): (r: string)
    ensures |r| <= 2
    ensures r == "" <==> firstName == "" && !Present(lastName)
    ensures firstName != "" ==> r == InitialsAsWritten(firstName, lastName)
    ensures firstName == "" && Present(lastName) ==> r == [lastName.value[0]]
  {
    (if firstName == "" then "" else [firstName[0]]) +
    (if Present(lastName) then [lastName.value[0]] else "")
  }

  /** With the intended initials an unnamed visitor without a photo gets the default disc. */
  lemma UnnamedGetsDefaultDisc(name: Option<string>)
    ensures ContactAvatar(None, name, Some(InitialsOf("", None))) == Initials(DefaultInitials)
  {
  }

  // ---------------------------------------------------------------- the page

  datatype Page =
    | Loading
    | Failed
    | Content(
        data: UserPortfolio,
        projects: Option<seq<Project>>,
        experience: Option<seq<Experience>>,
        skillset: Option<seq<SkillItem>>,
        contact: Section)

  /**
    The contact section the page renders, with the initials as the page
    computes them. The page's `isCalcomEnabled` is not a prop of the section,
    so `integrationsEnabled` keeps its default and the section is always shown.
   */
  function ContactOf(d: UserPortfolio): (s: Section)
    ensures s.preText == DefaultPreText
    ensures s.avatar == ContactAvatar(NonEmpty(d.profileImage.GetOr("")), Some(FullName(d)),
                                      Some(InitialsAsWritten(d.firstName, d.lastName)))
    ensures s.button.Booking? <==> CalLinkOf(d) != ""
    ensures s.button.Booking? ==> s.button == Booking(CalLinkOf(d), DefaultLinkText)
  {
    var cal := CalLinkOf(d);
    var section := ContactSection04(NonEmpty(d.profileImage.GetOr("")), Some(FullName(d)),
                                    Some(InitialsAsWritten(d.firstName, d.lastName)), Some(cal), None, None, None);
    section.value
  }

  /** Whenever there is a first name, the page's disc is the one the intended initials give. */
  lemma ContactOfIntended(d: UserPortfolio)
    requires d.firstName != ""
    ensures ContactOf(d).avatar == ContactAvatar(NonEmpty(d.profileImage.GetOr("")), Some(FullName(d)),
                                                 Some(InitialsOf(d.firstName, d.lastName)))
  {
  }

  /**
    `RootPage04`: loading first, then the error line when the query failed or
    brought nothing, then the sections fed from the portfolio.
   */
  function RootPage04(q: Query): (p: Page)
    ensures p.Loading? <==> q.isLoading
    ensures p.Failed? <==> !q.isLoading && (q.error.Some? || q.data.None?)
    ensures p.Content? ==> q.data.Some? && p.data == q.data.value
    ensures p.Content? ==> p.projects == p.data.projects && p.experience == p.data.experience &&
                           p.skillset == p.data.skillset
    ensures p.Content? ==> p.contact == ContactOf(p.data)
  {
    var state := AllDetails(q);
    if state.isLoading then Loading
    else if state.error.Some? || state.data.None? then Failed
    else
      var d := state.data.value;
      Content(d, d.projects, d.experience, d.skillset, ContactOf(d))
  }

  /** A loaded portfolio without a first name, last name or photo puts "undefined" on the page's contact disc. */
  lemma PageShowsUndefined(q: Query)
    requires !q.isLoading && q.error.None? && q.data.Some?
    requires q.data.value.firstName == "" && q.data.value.lastName.None? && q.data.value.profileImage.None?
    ensures RootPage04(q).Content? && RootPage04(q).contact.avatar == Initials("undefined")
  {
  }

  /** Whenever the page has content, a user with a username always gets the booking button. */
  lemma BookingWithUsername(q: Query)
    requires RootPage04(q).Content? && q.data.value.userName != ""
    ensures RootPage04(q).contact.button.Booking?
  {
  }
}
