/**
  The classic template's `getLinkIcon`: the icon of a project or achievement
  link, chosen from its title by case-insensitive substring tests tried in a
  fixed order. The rendered icon element is modelled by which icon it is.
 */
module Icons01 {
  import opened Wrappers
  import opened Strings

  datatype LinkIcon =
    | GithubIcon | LinkedinIcon | InstagramIcon | XIcon | BehanceIcon | DribbbleIcon
    | PinterestIcon | TelegramIcon | YoutubeIcon | GlobeIcon | ExternalIcon

  /** `getLinkIcon(linkTitle)`: the external-link icon for a missing or empty title; else the icon its lower-cased form selects. */
  function GetLinkIcon(linkTitle: Option<string>): (r: LinkIcon)
    ensures !Present(linkTitle) ==> r == ExternalIcon
    ensures r == GithubIcon <==> Present(linkTitle) && Contains(Lower(linkTitle.value), "github")
    ensures r == LinkedinIcon <==> Present(linkTitle) && !Contains(Lower(linkTitle.value), "github") &&
                                   Contains(Lower(linkTitle.value), "linkedin")
  {
    if !Present(linkTitle) then ExternalIcon else IconOf(Lower(linkTitle.value))
  }

  /** The chain of tests on the lower-cased title; the first that holds decides. */
  function IconOf(title: string): (r: LinkIcon)
    ensures r == GithubIcon <==> Contains(title, "github")
    ensures r == LinkedinIcon <==> !Contains(title, "github") && Contains(title, "linkedin")
  {
    if Contains(title, "github") then GithubIcon
    else if Contains(title, "linkedin") then LinkedinIcon
    else if Contains(title, "instagram") then InstagramIcon
    else if Contains(title, "twitter") || Contains(title, "x") then XIcon
    else if Contains(title, "behance") then BehanceIcon
    else if Contains(title, "dribbble") then DribbbleIcon
    else if Contains(title, "pinterest") then PinterestIcon
    else if Contains(title, "telegram") then TelegramIcon
    else if Contains(title, "youtube") then YoutubeIcon
    else if Contains(title, "website") || Contains(title, "web") then GlobeIcon
    else ExternalIcon
  }

  // ---------------------------------------------------------------- the rule table

  /** A rule of the chain: any of its words in the lower-cased title selects its icon. */
  datatype Rule = Rule(words: seq<string>, icon: LinkIcon)

  /** The chain as a table, in the order the tests are tried. */
  const Rules: seq<Rule> := [
    Rule(["github"], GithubIcon),
    Rule(["linkedin"], LinkedinIcon),
    Rule(["instagram"], InstagramIcon),
    Rule(["twitter", "x"], XIcon),
    Rule(["behance"], BehanceIcon),
    Rule(["dribbble"], DribbbleIcon),
    Rule(["pinterest"], PinterestIcon),
    Rule(["telegram"], TelegramIcon),
    Rule(["youtube"], YoutubeIcon),
    Rule(["website", "web"], GlobeIcon)
  ]

  /** Some word of the list occurs in the title. */
  predicate AnyWord(words: seq<string>, title: string)
    decreases |words|
  {
    |words| > 0 && (Contains(title, words[0]) || AnyWord(words[1..], title))
  }

  /** The icon of the first rule from position `i` on with a word in the title, or the external-link icon when none has. */
  function FirstRule(rules: seq<Rule>, i: nat, title: string): (r: LinkIcon)
    ensures r == ExternalIcon || exists k :: i <= k < |rules| && rules[k].icon == r && AnyWord(rules[k].words, title)
    decreases |rules| - i
  {
    if i >= |rules| then ExternalIcon
    else if AnyWord(rules[i].words, title) then rules[i].icon
    else FirstRule(rules, i + 1, title)
  }

  lemma SingleWord(w: string, title: string)
    ensures AnyWord([w], title) == Contains(title, w)
  {
    assert [w][1..] == [];
  }

  lemma TwoWords(v: string, w: string, title: string)
    ensures AnyWord([v, w], title) == (Contains(title, v) || Contains(title, w))
  {
    assert [v, w][1..] == [w];
    SingleWord(w, title);
  }

  /** The last five rules of the table, as a chain. */
  lemma TableTail(title: string)
    ensures FirstRule(Rules, 5, title) ==
              if Contains(title, "dribbble") then DribbbleIcon
              else if Contains(title, "pinterest") then PinterestIcon
              else if Contains(title, "telegram") then TelegramIcon
              else if Contains(title, "youtube") then YoutubeIcon
              else if Contains(title, "website") || Contains(title, "web") then GlobeIcon
              else ExternalIcon
  {
    TwoWords("website", "web", title);
    assert FirstRule(Rules, 9, title) == if Contains(title, "website") || Contains(title, "web") then GlobeIcon else ExternalIcon;
    SingleWord("youtube", title);
    assert FirstRule(Rules, 8, title) == if Contains(title, "youtube") then YoutubeIcon else FirstRule(Rules, 9, title);
    SingleWord("telegram", title);
    assert FirstRule(Rules, 7, title) == if Contains(title, "telegram") then TelegramIcon else FirstRule(Rules, 8, title);
    SingleWord("pinterest", title);
    assert FirstRule(Rules, 6, title) == if Contains(title, "pinterest") then PinterestIcon else FirstRule(Rules, 7, title);
    SingleWord("dribbble", title);
  }

  /** The chain of tests is exactly the first-match reading of the table. */
  lemma {:induction false} IconOfTable(title: string)
    ensures IconOf(title) == FirstRule(Rules, 0, title)
  {
    TableTail(title);
    SingleWord("behance", title);
    assert FirstRule(Rules, 4, title) == if Contains(title, "behance") then BehanceIcon else FirstRule(Rules, 5, title);
    TwoWords("twitter", "x", title);
    assert FirstRule(Rules, 3, title) == if Contains(title, "twitter") || Contains(title, "x") then XIcon else FirstRule(Rules, 4, title);
    SingleWord("instagram", title);
    assert FirstRule(Rules, 2, title) == if Contains(title, "instagram") then InstagramIcon else FirstRule(Rules, 3, title);
    SingleWord("linkedin", title);
    assert FirstRule(Rules, 1, title) == if Contains(title, "linkedin") then LinkedinIcon else FirstRule(Rules, 2, title);
    SingleWord("github", title);
  }

  // ---------------------------------------------------------------- consequences

  /** Case does not matter: the title upper-cased or lower-cased gets the same icon. */
  lemma CaseInsensitive(t: string)
    ensures GetLinkIcon(Some(Upper(t))) == GetLinkIcon(Some(t))
    ensures GetLinkIcon(Some(Lower(t))) == GetLinkIcon(Some(t))
  {
    LowerUpper(t);
    LowerIdempotent(t);
  }

  /** Any title with an "x" that no earlier test caught, such as "Next", gets the X icon. */
  lemma NextGetsX()
    ensures GetLinkIcon(Some("Next")) == XIcon
  {
    var title := Lower("Next");
    assert title == "next";
    assert MatchAt(title, "x", 2) by {
      assert title[2..3] == "x";
    }
    assert !Contains(title, "github") && !Contains(title, "linkedin") && !Contains(title, "instagram");
  }

  /** The "website" test adds nothing: every title it accepts also holds "web". */
  lemma WebsiteIsWeb(title: string)
    ensures IconOf(title) == GlobeIcon <==>
              !Contains(title, "github") && !Contains(title, "linkedin") && !Contains(title, "instagram") &&
              !Contains(title, "twitter") && !Contains(title, "x") && !Contains(title, "behance") &&
              !Contains(title, "dribbble") && !Contains(title, "pinterest") && !Contains(title, "telegram") &&
              !Contains(title, "youtube") && Contains(title, "web")
  {
    ContainsPrefix(title, "web", "site");
    assert "web" + "site" == "website";
  }
}
