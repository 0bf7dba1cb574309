/**
  Template 04's `Hero`: the lower-cased greeting, the header line, the
  description regrouped two sentences per paragraph, and one labelled link per
  profile link with an icon chosen from its address.
 */
module Hero04 {
  import opened Wrappers
  import opened Seqs
  import opened Strings
  import opened Portfolio

  const DefaultHeader := "i build things on the internet."
  const SentenceBreak := ". "
  const ParagraphBreak := "\n\n"
  const NoHref := "#"

  // ---------------------------------------------------------------- formatDescription

  /** `for (i = 0; i < parts.length; i += 2) parts.slice(i, i + 2).join(sep)`: consecutive pairs rejoined. */
  function Pairs(parts: seq<string>, sep: string): (r: seq<string>)
    ensures |r| == (|parts| + 1) / 2
    decreases |parts|
  {
    if |parts| == 0 then []
    else if |parts| <= 2 then [Join(parts, sep)]
    else [Join(parts[..2], sep)] + Pairs(parts[2..], sep)
  }

  /** Rejoining the pairs with the same separator gives the original join back: pairing loses no text. */
  lemma {:induction false} PairsJoin(parts: seq<string>, sep: string)
    ensures Join(Pairs(parts, sep), sep) == Join(parts, sep)
    decreases |parts|
  {
    if |parts| > 2 {
      var rest := parts[2..];
      PairsJoin(rest, sep);
      assert Pairs(parts, sep) == [Join(parts[..2], sep)] + Pairs(rest, sep);
      assert (parts[1..])[1..] == rest;
      assert Join(parts[..2], sep) == parts[0] + sep + parts[1];
    }
  }

  /** A chunk survives when it is not empty after trimming. */
  predicate Kept(chunk: string) {
    chunk != ""
  }

  /** A paragraph of the output: not empty, and without surrounding whitespace. */
  predicate Paragraph(s: string) {
    s != "" && Trim(s) == s
  }

  /** Trimming twice trims nothing more. */
  lemma TrimTwice(s: string)
    ensures Trim(Trim(s)) == Trim(s)
  {
  }

  /** The survivors of a list of trimmed chunks are paragraphs. */
  lemma KeptParagraphs(xs: seq<string>)
    requires forall i :: 0 <= i < |xs| ==> Trim(xs[i]) == xs[i]
    ensures forall i :: 0 <= i < |Filter(Kept, xs)| ==> Paragraph(Filter(Kept, xs)[i])
  {
    var r := Filter(Kept, xs);
    forall i | 0 <= i < |r|
      ensures Paragraph(r[i])
    {
      assert r[i] in r;
      var k :| 0 <= k < |xs| && xs[k] == r[i];
    }
  }

  /** The paragraphs: the trimmed sentence pairs, without the empty ones. */
  function Chunks(text: string): (r: seq<string>)
    ensures |r| <= (|Split(text, SentenceBreak)| + 1) / 2
    ensures forall i :: 0 <= i < |r| ==> Paragraph(r[i])
  {
    var pairs := Pairs(Split(text, SentenceBreak), SentenceBreak);
    var trimmed := Map(Trim, pairs);
    forall i | 0 <= i < |trimmed|
      ensures Trim(trimmed[i]) == trimmed[i]
    {
      TrimTwice(pairs[i]);
    }
    KeptParagraphs(trimmed);
    Filter(Kept, trimmed)
  }

  /** A description with no sentence break is one paragraph, its own trim, or none when it is blank. */
  lemma ChunksPlain(text: string)
    ensures !Contains(text, SentenceBreak) ==> Chunks(text) == if Trim(text) == "" then [] else [Trim(text)]
  {
    if !Contains(text, SentenceBreak) {
      assert Split(text, SentenceBreak) == [text];
      var trimmed := Map(Trim, Pairs([text], SentenceBreak));
      assert trimmed == [Trim(text)];
      assert trimmed[1..] == [];
    }
  }

  /** `formatDescription(text)`: the paragraphs separated by blank lines. */
  function FormatDescription(text: string): (r: string)
    ensures !Contains(text, SentenceBreak) ==> r == Trim(text)
    ensures Chunks(text) == [] ==> r == ""
    ensures |Chunks(text)| == 1 ==> r == Chunks(text)[0]
  {
    ChunksPlain(text);
    Join(Chunks(text), ParagraphBreak)
  }

  /** The sentence pairs, rejoined, are the description itself. */
  lemma PairsOfText(text: string)
    ensures Join(Pairs(Split(text, SentenceBreak), SentenceBreak), SentenceBreak) == text
  {
    PairsJoin(Split(text, SentenceBreak), SentenceBreak);
    JoinSplit(text, SentenceBreak);
  }

  // ---------------------------------------------------------------- getIcon

  datatype LinkIcon = GithubMark | TwitterMark | LinkedinMark | MailMark | ExternalMark

  /** `getIcon(url)`: case-sensitive substring tests in a fixed order; the first that holds decides. */
  function GetIcon(url: string): (r: LinkIcon)
    ensures r == GithubMark <==> Contains(url, "github")
    ensures r == TwitterMark <==> !Contains(url, "github") && (Contains(url, "twitter") || Contains(url, "x.com"))
    ensures r == LinkedinMark <==> !Contains(url, "github") && !Contains(url, "twitter") && !Contains(url, "x.com") &&
                                   Contains(url, "linkedin")
  {
    if Contains(url, "github") then GithubMark
    else if Contains(url, "twitter") || Contains(url, "x.com") then TwitterMark
    else if Contains(url, "linkedin") then LinkedinMark
    else if Contains(url, "mailto:") || Contains(url, "mail") then MailMark
    else ExternalMark
  }

  /** The "mailto:" test adds nothing: every address it accepts also contains "mail". */
  lemma MailtoIsMail(url: string)
    ensures GetIcon(url) == MailMark <==>
              !Contains(url, "github") && !Contains(url, "twitter") && !Contains(url, "x.com") &&
              !Contains(url, "linkedin") && Contains(url, "mail")
  {
    ContainsPrefix(url, "mail", "to:");
    assert "mail" + "to:" == "mailto:";
  }

  /** The placeholder address of a link without one gets the generic icon. */
  lemma PlaceholderIsExternal()
    ensures GetIcon(NoHref) == ExternalMark
  {
    ContainsHasChar(NoHref, "github", 0);
    ContainsHasChar(NoHref, "twitter", 0);
    ContainsHasChar(NoHref, "x.com", 0);
    ContainsHasChar(NoHref, "linkedin", 0);
    ContainsHasChar(NoHref, "mailto:", 0);
    ContainsHasChar(NoHref, "mail", 0);
  }

  // ---------------------------------------------------------------- the hero

  /** A link of the "find me around" row. */
  datatype SocialLink = SocialLink(href: string, caption: string, icon: LinkIcon)

  /** `<SocialLink href={linkUrl || "#"} label={linkTitle?.toLowerCase() || ""} />`. */
  function LinkOf(l: UserLink): (s: SocialLink)
    ensures s.href != ""
    ensures l.linkUrl != "" ==> s.href == l.linkUrl
    ensures l.linkUrl == "" ==> s.href == NoHref && s.icon == ExternalMark
    ensures |s.caption| == |l.linkTitle| && s.caption == Lower(l.linkTitle)
    ensures s.icon == GetIcon(s.href)
  {
    var href := if l.linkUrl != "" then l.linkUrl else NoHref;
    PlaceholderIsExternal();
    SocialLink(href, Lower(l.linkTitle), GetIcon(href))
  }

  datatype Hero = Hero(name: string, headerText: string, description: string, links: seq<SocialLink>)

  /** `Hero`: the greeting name lower-cased, the header with its default, the regrouped description, the links in order. */
  function HeroView(d: UserPortfolio): (h: Hero)
    ensures h.name == Lower(d.firstName)
    ensures h.headerText == Or(d.headerText, DefaultHeader) && h.headerText != ""
    ensures !Present(d.description) ==> h.description == ""
    ensures Present(d.description) ==> h.description == FormatDescription(d.description.value)
    ensures |h.links| == |d.links.GetOr([])|
    ensures forall i :: 0 <= i < |h.links| ==> h.links[i] == LinkOf(d.links.value[i])
  {
    Hero(
      Lower(d.firstName),
      Or(d.headerText, DefaultHeader),
      if Present(d.description) then FormatDescription(d.description.value) else "",
      Map(LinkOf, d.links.GetOr([])))
  }
}
