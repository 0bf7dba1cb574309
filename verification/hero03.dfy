/**
  Template 03's `Hero`: the avatar with up to three event badges around it, the
  greeting, the core skills, one icon link per usable profile link and the
  e-mail links. Whether the profile image loads is a parameter (the browser's
  image loader is not modelled); the avatar is the state once it has settled.
 */
module Hero03 {
  import opened Wrappers
  import opened Seqs
  import opened Strings
  import opened Portfolio
  import opened Urls

  const DefaultName := "Ram"
  const DefaultHeader := "I build interactive web applications with modern technologies."
  const DefaultAlt := "Profile"
  const FallbackEmail := "contact@example.com"
  const EventCap := 3
  const DefaultAvatar := "data:image/svg+xml,%3Csvg xmlns='http://www.w3.org/2000/svg' viewBox='0 0 100 100' width='200' height='200'%3E%3Crect width='100%25' height='100%25' fill='%23e5e7eb'/%3E%3Ctext x='50%25' y='50%25' font-family='sans-serif' font-size='40' text-anchor='middle' dy='.3em' fill='%239ca3af'%3EU%3C/text%3E%3C/svg%3E"

  datatype SocialIcon =
    | GithubIcon | LinkedinIcon | XIcon | InstagramIcon | YoutubeIcon | TelegramIcon
    | PinterestIcon | BehanceIcon | DribbbleIcon | CodeIcon | CalendarIcon | ProductHuntIcon
    | GlobeIcon | MailIcon

  /** The keys of the icon table, besides `default`. */
  const TableKeys: set<string> := {"github", "linkedin", "x", "twitter", "instagram", "youtube", "telegram",
                                   "pinterest", "behance", "dribbble", "leetcode", "calcom", "cal.com",
                                   "product_hunt", "product hunt", "website", "mail"}

  /** `socialIcons[key] || socialIcons.default` for an already lower-cased key. */
  function IconFor(key: string): (r: SocialIcon)
    ensures r == XIcon <==> key == "x" || key == "twitter"
    ensures r == CalendarIcon <==> key == "calcom" || key == "cal.com"
    ensures r == ProductHuntIcon <==> key == "product_hunt" || key == "product hunt"
    ensures r == CodeIcon <==> key == "leetcode"
    ensures r == MailIcon <==> key == "mail"
    ensures r == GithubIcon <==> key == "github"
    ensures r == LinkedinIcon <==> key == "linkedin"
    ensures r == InstagramIcon <==> key == "instagram"
    ensures r == YoutubeIcon <==> key == "youtube"
    ensures r == TelegramIcon <==> key == "telegram"
    ensures r == PinterestIcon <==> key == "pinterest"
    ensures r == BehanceIcon <==> key == "behance"
    ensures r == DribbbleIcon <==> key == "dribbble"
    ensures r == GlobeIcon <==> key == "website" || key !in TableKeys
  {
    match key
    case "github" => GithubIcon
    case "linkedin" => LinkedinIcon
    case "x" => XIcon
    case "twitter" => XIcon
    case "instagram" => InstagramIcon
    case "youtube" => YoutubeIcon
    case "telegram" => TelegramIcon
    case "pinterest" => PinterestIcon
    case "behance" => BehanceIcon
    case "dribbble" => DribbbleIcon
    case "leetcode" => CodeIcon
    case "calcom" => CalendarIcon
    case "cal.com" => CalendarIcon
    case "product_hunt" => ProductHuntIcon
    case "product hunt" => ProductHuntIcon
    case "website" => GlobeIcon
    case "mail" => MailIcon
    case _ => GlobeIcon
  }

  /** The icon a link title gets: looked up by its lower-cased form. */
  function TitleIcon(title: string): SocialIcon {
    IconFor(Lower(title))
  }

  /** The icon does not depend on how the title is capitalised. */
  lemma TitleIconIgnoresCase(title: string)
    ensures TitleIcon(Upper(title)) == TitleIcon(title)
    ensures TitleIcon(Lower(title)) == TitleIcon(title)
  {
    LowerUpper(title);
    LowerIdempotent(title);
  }

  /** An icon link of the hero. */
  datatype Anchor = Anchor(href: string, icon: SocialIcon, ariaLabel: string)

  /** `link.linkUrl && link.linkTitle`: links missing either are skipped. */
  predicate ShownLink(l: UserLink) {
    l.linkUrl != "" && l.linkTitle != ""
  }

  function LinkAnchor(l: UserLink): Anchor {
    Anchor(WithScheme(l.linkUrl), TitleIcon(l.linkTitle), l.linkTitle)
  }

  /** The social icon row: one anchor per link that has both an address and a title, in order. */
  function SocialAnchors(links: Option<seq<UserLink>>): (r: seq<Anchor>)
    ensures r == Map(LinkAnchor, Filter(ShownLink, links.GetOr([])))
    ensures |r| == |Filter(ShownLink, links.GetOr([]))|
    ensures forall i :: 0 <= i < |r| ==> StartsWith(r[i].href, "http") && r[i].ariaLabel != ""
    ensures links.Some? ==> forall j :: 0 <= j < |links.value| && ShownLink(links.value[j]) ==> LinkAnchor(links.value[j]) in r
  {
    var shown := Filter(ShownLink, links.GetOr([]));
    var r := Map(LinkAnchor, shown);
    MapHas(LinkAnchor, shown);
    assert forall i :: 0 <= i < |r| ==> shown[i] in shown && r[i] == LinkAnchor(shown[i]);
    r
  }

  datatype Hero = Hero(
    avatar: string,
    alt: string,
    events: seq<Event>,
    name: string,
    headerText: string,
    coreSkills: Option<seq<SkillItem>>,
    links: seq<Anchor>,
    mailIcon: Option<string>,
    contactHref: string)

  /**
    The settled avatar: the image once it has loaded, provided its address is
    not blank; the built-in picture otherwise.
   */
  function AvatarOf(imageSrc: Option<string>, loads: bool): (r: string)
    ensures r == DefaultAvatar || (imageSrc.Some? && r == imageSrc.value && Trim(r) != "")
    ensures Present(imageSrc) && Trim(imageSrc.value) != "" && loads ==> r == imageSrc.value
    ensures !loads ==> r == DefaultAvatar
  {
    if Present(imageSrc) && Trim(imageSrc.value) != "" && loads then imageSrc.value else DefaultAvatar
  }

  function IsCoreSkill(s: SkillItem): bool { s.isCoreSkill }

  /** `Hero`: `name` and `headerText` fall back to their defaults only when they are not passed at all. */
  function HeroView(name: Option<string>, headerText: Option<string>, email: string, imageSrc: Option<string>,
                    data: UserPortfolio, loads: bool): (h: Hero)
    ensures h.avatar == AvatarOf(imageSrc, loads)
    ensures h.alt != "" && h.alt == Or(Some(name.GetOr(DefaultName)), DefaultAlt)
    ensures h.events == Take(data.events.GetOr([]), EventCap)
    ensures h.name == if name.Some? then name.value else DefaultName
    ensures h.headerText == if headerText.Some? then headerText.value else DefaultHeader
    ensures h.coreSkills.Some? <==> data.skillset.Some?
    ensures h.coreSkills.Some? ==> h.coreSkills.value == Filter(IsCoreSkill, data.skillset.value)
    ensures h.coreSkills.Some? ==> forall s :: s in h.coreSkills.value <==> s in data.skillset.value && s.isCoreSkill
    ensures h.links == SocialAnchors(data.links)
    ensures h.mailIcon.Some? <==> email != ""
    ensures h.mailIcon.Some? ==> h.mailIcon.value == "mailto:" + email == h.contactHref
    ensures email == "" ==> h.contactHref == "mailto:" + FallbackEmail
  {
    var shownName := name.GetOr(DefaultName);
    Hero(
      AvatarOf(imageSrc, loads),
      Or(Some(shownName), DefaultAlt),
      Take(data.events.GetOr([]), EventCap),
      shownName,
      headerText.GetOr(DefaultHeader),
      if data.skillset.Some? then Some(Filter(IsCoreSkill, data.skillset.value)) else None,
      SocialAnchors(data.links),
      if email != "" then Some("mailto:" + email) else None,
      "mailto:" + (if email != "" then email else FallbackEmail))
  }
}
