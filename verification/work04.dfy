/**
  Template 04's `Work`: the first two experiences as full entries, the rest as
  a row of overlapping company logos. Date formatting is the engine's locale
  formatter and is a parameter; which logo the pointer is over is a parameter
  too.
 */
module Work04 {
  import opened Wrappers
  import opened Seqs
  import opened Strings
  import opened Portfolio

  const MainCount := 2
  const NoDescription := "No description added"
  const Ongoing := "Present"
  const LogoSuffix := " logo"
  const TopZ := 40
  const ZStep := 10
  const HoverZ := 50

  /** `date.toLocaleDateString("en-US", { month: "short", year: "numeric" })`, left to the engine. */
  type DateFormat = string -> string

  /** `formatDate`: "" for an empty date, the engine's formatting otherwise. */
  function FormatDate(fmt: DateFormat, date: string): (r: string)
    ensures date == "" ==> r == ""
    ensures date != "" ==> r == fmt(date)
  {
    if date == "" then "" else fmt(date)
  }

  /** The timeline line: the start, a dash, and the end or "Present" for a missing or empty end. */
  function Timeline(fmt: DateFormat, startedAt: string, endAt: Option<string>): (r: string)
    ensures StartsWith(r, FormatDate(fmt, startedAt) + " - ")
    ensures !Present(endAt) ==> r == FormatDate(fmt, startedAt) + " - " + Ongoing
    ensures Present(endAt) ==> r == FormatDate(fmt, startedAt) + " - " + fmt(endAt.value)
  {
    var head := FormatDate(fmt, startedAt) + " - ";
    var r := head + (if Present(endAt) then FormatDate(fmt, endAt.value) else Ongoing);
    assert r[..|head|] == head;
    r
  }

  /** What a logo circle shows: the image, or the company's upper-cased first letter. */
  datatype Mark = Picture(src: string) | Letter(text: string)

  /** `logoURL ? <img> : companyName.charAt(0).toUpperCase()`. */
  function MarkOf(logoURL: Option<string>, companyName: string): (m: Mark)
    ensures m.Picture? <==> Present(logoURL)
    ensures m.Picture? ==> m.src == logoURL.value
    ensures m.Letter? ==> |m.text| <= 1 && (m.text == "" <==> companyName == "")
    ensures m.Letter? && companyName != "" ==> m.text == [UpperChar(companyName[0])]
  {
    if Present(logoURL) then Picture(logoURL.value) else Letter(Initial(companyName))
  }

  /** A full entry of the list. */
  datatype Item = Item(id: string, companyName: string, website: Option<string>, mark: Mark,
                       title: string, description: string, timeline: string)

  /** `WorkItem`: the company links to its website only when there is one; a missing description shows the placeholder. */
  function ItemOf(fmt: DateFormat, e: Experience): (it: Item)
    ensures it.id == e.id && it.companyName == e.companyName && it.title == e.title
    ensures it.website.Some? <==> Present(e.companyWebsite)
    ensures it.website.Some? ==> it.website.value == e.companyWebsite.value
    ensures it.mark == MarkOf(e.logoURL, e.companyName)
    ensures it.description == Or(e.description, NoDescription) && it.description != ""
    ensures it.timeline == Timeline(fmt, e.startedAt, e.endAt)
  {
    Item(e.id, e.companyName, if Present(e.companyWebsite) then e.companyWebsite else None,
         MarkOf(e.logoURL, e.companyName), e.title, Or(e.description, NoDescription),
         Timeline(fmt, e.startedAt, e.endAt))
  }

  // ---------------------------------------------------------------- the company name of a logo

  /** `alt.replace(" logo", "")`: the logo's company name as the component recovers it from its alt text. */
  function CompanyNameAsWritten(alt: string): (r: string)
    ensures !Contains(alt, LogoSuffix) ==> r == alt
    ensures Contains(alt, LogoSuffix) ==> |r| == |alt| - |LogoSuffix|
  {
    match IndexOf(alt, LogoSuffix)
    case None => alt
    case Some(i) => alt[..i] + alt[i + |LogoSuffix|..]
  }

  /** A company whose own name holds " logo" loses that part instead of the suffix. */
  lemma CompanyNameAsWrittenLosesWord()
    ensures CompanyNameAsWritten("A logo B" + LogoSuffix) == "A B logo"
  {
    var alt := "A logo B" + LogoSuffix;
    assert |alt| == 13;
    assert MatchAt(alt, LogoSuffix, 1) by {
      assert alt[1..1 + |LogoSuffix|] == LogoSuffix;
    }
    assert !MatchAt(alt, LogoSuffix, 0) by {
      assert alt[0..|LogoSuffix|][0] == alt[0] != LogoSuffix[0];
    }
    var found := IndexOf(alt, LogoSuffix);
    assert found.Some? && found.value <= 1;
    assert found == Some(1);
    assert alt[..1] == "A";
    assert alt[1 + |LogoSuffix|..] == " B logo";
    assert "A" + " B logo" == "A B logo";
  }

  /** The name as evidently intended: the alt text without the " logo" the component appended. */
  function CompanyNameOf(alt: string): (r: string)
    ensures EndsWith(alt, LogoSuffix) ==> r + LogoSuffix == alt
    ensures !EndsWith(alt, LogoSuffix) ==> r == alt
  {
    if EndsWith(alt, LogoSuffix) then alt[..|alt| - |LogoSuffix|] else alt
  }

  /** Every company name is recovered from the alt text the component builds for it. */
  lemma CompanyNameRoundTrip(name: string)
    ensures CompanyNameOf(name + LogoSuffix) == name
  {
    var alt := name + LogoSuffix;
    assert alt[|alt| - |LogoSuffix|..] == LogoSuffix;
    assert alt[..|alt| - |LogoSuffix|] == name;
  }

  /** The two readings agree on every name that does not itself hold " logo". */
  lemma CompanyNamesAgree(name: string)
    requires !Contains(name, LogoSuffix)
    ensures CompanyNameAsWritten(name + LogoSuffix) == CompanyNameOf(name + LogoSuffix)
  {
    var alt := name + LogoSuffix;
    CompanyNameRoundTrip(name);
    assert MatchAt(alt, LogoSuffix, |name|) by {
      assert alt[|name|..|name| + |LogoSuffix|] == LogoSuffix;
    }
    forall j | 0 <= j < |name|
      ensures !MatchAt(alt, LogoSuffix, j)
    {
      if j + |LogoSuffix| <= |name| {
        assert alt[j..j + |LogoSuffix|] == name[j..j + |LogoSuffix|];
        assert !MatchAt(name, LogoSuffix, j);
      } else {
        assert alt[j..j + |LogoSuffix|][|name| - j] == ' ';
        assert LogoSuffix[|name| - j] != ' ';
      }
    }
    assert IndexOf(alt, LogoSuffix) == Some(|name|);
  }

  // ---------------------------------------------------------------- the logo row

  /** A logo of the "also worked with folks at" row. */
  datatype Logo = Logo(id: string, alt: string, companyName: string, mark: Mark,
                       href: Option<string>, zIndex: int, overlaps: bool)

  /** `zIndex={40 - index * 10}`: later logos sit lower. */
  function StackZ(index: nat): (z: int)
    ensures z <= TopZ && (z == TopZ <==> index == 0)
  {
    TopZ - ZStep * index
  }

  /**
    `CompanyLogo` at position `index`: the name shown in its tooltip and
    letter is recovered from the alt text with `replace`, as the component
    does; the logo is raised above every other while hovered and overlaps its
    left neighbour unless first.
   */
  function LogoOf(e: Experience, index: nat, hovered: bool): (l: Logo)
    ensures l.alt == e.companyName + LogoSuffix
    ensures l.companyName == CompanyNameAsWritten(l.alt)
    ensures l.mark == MarkOf(e.logoURL, l.companyName)
    ensures !Contains(e.companyName, LogoSuffix) ==>
              l.companyName == CompanyNameOf(l.alt) == e.companyName && l.mark == MarkOf(e.logoURL, e.companyName)
    ensures l.href.Some? <==> Present(e.companyWebsite)
    ensures hovered ==> l.zIndex == HoverZ
    ensures !hovered ==> l.zIndex == StackZ(index)
    ensures l.overlaps <==> index > 0
  {
    var alt := e.companyName + LogoSuffix;
    var name := CompanyNameAsWritten(alt);
    assert !Contains(e.companyName, LogoSuffix) ==> name == CompanyNameOf(alt) == e.companyName by {
      if !Contains(e.companyName, LogoSuffix) {
        CompanyNamesAgree(e.companyName);
        CompanyNameRoundTrip(e.companyName);
      }
    }
    Logo(e.id, alt, name, MarkOf(e.logoURL, name), if Present(e.companyWebsite) then e.companyWebsite else None,
         if hovered then HoverZ else StackZ(index), StackZ(index) < TopZ)
  }

  /** A company named "A logo B" is shown in its logo's tooltip as "A B logo". */
  lemma LogoLosesWord(e: Experience, index: nat, hovered: bool)
    requires e.companyName == "A logo B"
    ensures LogoOf(e, index, hovered).companyName == "A B logo"
  {
    CompanyNameAsWrittenLosesWord();
  }

  /** The logo row for the experiences after the first two; `hovered` is the position under the pointer, if any. */
  function LogoRow(others: seq<Experience>, hovered: Option<nat>): (r: seq<Logo>)
    ensures |r| == |others|
    ensures forall i :: 0 <= i < |r| ==> r[i] == LogoOf(others[i], i, hovered == Some(i))
  {
    seq(|others|, i requires 0 <= i < |others| => LogoOf(others[i], i, hovered == Some(i)))
  }

  /** Un-hovered logos stack left over right, and a hovered logo is above all of them. */
  lemma StackOrder(others: seq<Experience>, hovered: Option<nat>, i: nat, j: nat)
    requires i < j < |others|
    ensures var r := LogoRow(others, hovered);
            (hovered != Some(i) && hovered != Some(j) ==> r[i].zIndex > r[j].zIndex) &&
            (hovered == Some(i) ==> r[i].zIndex > r[j].zIndex) &&
            (hovered == Some(j) ==> r[j].zIndex > r[i].zIndex)
  {
  }

  // ---------------------------------------------------------------- the section

  datatype Work =
    | NoWork                                      // "No work experience to display"
    | Listed(main: seq<Item>, others: seq<Logo>)  // the row is shown only when `others` is not empty

  /** `Work`: the empty state for a missing or empty list, else the first two entries and the logo row. */
  function WorkView(fmt: DateFormat, experiences: Option<seq<Experience>>, hovered: Option<nat>): (w: Work)
    ensures w.NoWork? <==> experiences.None? || experiences.value == []
    ensures w.Listed? ==> |w.main| == Min(|experiences.value|, MainCount)
    ensures w.Listed? ==> forall i :: 0 <= i < |w.main| ==> w.main[i] == ItemOf(fmt, experiences.value[i])
    ensures w.Listed? ==> |w.main| + |w.others| == |experiences.value|
    ensures w.Listed? ==> forall i :: 0 <= i < |w.others| ==>
              w.others[i] == LogoOf(experiences.value[MainCount + i], i, hovered == Some(i))
  {
    match experiences
    case None => NoWork
    case Some(xs) =>
      if xs == [] then NoWork
      else
        var main := Take(xs, MainCount);
        var rest := Drop(xs, MainCount);
        assert main + rest == xs;
        assert forall i :: 0 <= i < |rest| ==> rest[i] == xs[MainCount + i];
        Listed(Map(k => ItemOf(fmt, k), main), LogoRow(rest, hovered))
  }

  /** Entries and logos together cover every experience once, in order: the first two as entries, the rest as logos. */
  lemma WorkCoversAll(fmt: DateFormat, xs: seq<Experience>, hovered: Option<nat>)
    requires xs != []
    ensures var w := WorkView(fmt, Some(xs), hovered);
            w.Listed? &&
            (forall i :: 0 <= i < |xs| && i < MainCount ==> w.main[i].id == xs[i].id) &&
            (forall i :: MainCount <= i < |xs| ==> w.others[i - MainCount].id == xs[i].id)
  {
  }
}
