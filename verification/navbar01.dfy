/**
  The classic template's `ResponsiveNavbar`: the desktop dock and the mobile
  drawer share the quick links of the portfolio and the social links of its
  contact entries, each social link drawn with the icon of a known platform.
 */
module Navbar01 {
  import opened Wrappers
  import opened Seqs
  import opened Strings
  import opened Profile

  /** The nine platforms with an icon. */
  datatype Platform = Instagram | Linkedin | Github | X | Behance | Dribbble | Pinterest | Telegram | Youtube

  /** The key of each platform in `platformIcons`. */
  function PlatformKey(p: Platform): (k: string)
    ensures k != "" && Lower(k) == k
  {
    match p
    case Instagram => "instagram"
    case Linkedin => "linkedin"
    case Github => "github"
    case X => "x"
    case Behance => "behance"
    case Dribbble => "dribbble"
    case Pinterest => "pinterest"
    case Telegram => "telegram"
    case Youtube => "youtube"
  }

  /** `platformIcons[name.toLowerCase()]`: the platform whose key is the lower-cased name, if any. */
  function PlatformOf(name: string): (r: Option<Platform>)
    ensures r.Some? ==> PlatformKey(r.value) == Lower(name)
    ensures r.None? ==> forall p: Platform :: PlatformKey(p) != Lower(name)
  {
    match Lower(name)
    case "instagram" => Some(Instagram)
    case "linkedin" => Some(Linkedin)
    case "github" => Some(Github)
    case "x" => Some(X)
    case "behance" => Some(Behance)
    case "dribbble" => Some(Dribbble)
    case "pinterest" => Some(Pinterest)
    case "telegram" => Some(Telegram)
    case "youtube" => Some(Youtube)
    case _ => None
  }

  /** Every platform is found under its own key, whatever the case it is written in. */
  lemma PlatformRoundTrip(p: Platform)
    ensures PlatformOf(PlatformKey(p)) == Some(p)
    ensures PlatformOf(Upper(PlatformKey(p))) == Some(p)
  {
    LowerUpper(PlatformKey(p));
  }

  /** The lookup ignores case. */
  lemma PlatformIgnoresCase(name: string)
    ensures PlatformOf(Upper(name)) == PlatformOf(name)
  {
    LowerUpper(name);
  }

  // ---------------------------------------------------------------- social links

  /** `social?.navbar && social?.url`: the entry is meant for the navigation and has an address. */
  predicate Linked(e: (string, Social)) {
    e.1.navbar && e.1.url != ""
  }

  /** `socialLinks`: the linked entries of `contact.social`, in their order. */
  function SocialLinks(social: SocialMap): (r: SocialMap)
    ensures |r| <= |social|
    ensures forall e :: e in r <==> e in social && Linked(e)
  {
    Filter(Linked, social)
  }

  /** A social link as the dock draws it; the tooltip and the drawer show `caption`. */
  datatype DockLink = DockLink(key: string, href: string, platform: Platform, caption: string)

  /** The drawing of one entry: nothing for an unknown platform, else the link with `social.name || name` as caption. */
  function DockLinkOf(e: (string, Social)): (r: Option<DockLink>)
    ensures r.None? <==> PlatformOf(e.0).None?
    ensures r.Some? ==> r.value.key == e.0 && r.value.href == e.1.url && Some(r.value.platform) == PlatformOf(e.0)
    ensures r.Some? ==> r.value.caption == (if e.1.name != "" then e.1.name else e.0)
  {
    match PlatformOf(e.0)
    case None => None
    case Some(p) => Some(DockLink(e.0, e.1.url, p, if e.1.name != "" then e.1.name else e.0))
  }

  /** The rendered links of a list of entries: the entries with a drawing, in order. */
  function Shown(entries: SocialMap): (r: seq<DockLink>)
    ensures |r| <= |entries|
    ensures forall k :: 0 <= k < |r| ==> exists i :: 0 <= i < |entries| && DockLinkOf(entries[i]) == Some(r[k])
    ensures forall i :: 0 <= i < |entries| && DockLinkOf(entries[i]).Some? ==> DockLinkOf(entries[i]).value in r
    decreases |entries|
  {
    if entries == [] then []
    else
      var rest := Shown(entries[1..]);
      assert forall i :: 1 <= i < |entries| ==> entries[i] == entries[1..][i - 1];
      match DockLinkOf(entries[0])
      case None => rest
      case Some(l) => [l] + rest
  }

  /** Drawing distributes over concatenation: the links keep the entries' order. */
  lemma {:induction false} ShownAppend(a: SocialMap, b: SocialMap)
    ensures Shown(a + b) == Shown(a) + Shown(b)
    decreases |a|
  {
    if |a| > 0 {
      assert (a + b)[0] == a[0];
      assert (a + b)[1..] == a[1..] + b;
      ShownAppend(a[1..], b);
    } else {
      assert a + b == b;
    }
  }

  /**
    The dock lists the entries of `contact.social` in the map's order: the
    links of a map's first part come before those of the rest.
   */
  lemma DockOrder(a: SocialMap, b: SocialMap)
    ensures Shown(SocialLinks(a + b)) == Shown(SocialLinks(a)) + Shown(SocialLinks(b))
  {
    FilterAppend(Linked, a, b);
    ShownAppend(SocialLinks(a), SocialLinks(b));
  }

  /** Every rendered social link is the drawing of a linked entry of `contact.social`. */
  lemma ShownFromSocial(social: SocialMap)
    ensures forall l :: l in Shown(SocialLinks(social)) ==>
              exists i :: 0 <= i < |social| && Linked(social[i]) && DockLinkOf(social[i]) == Some(l)
  {
    var links := SocialLinks(social);
    var shown := Shown(links);
    forall l | l in shown
      ensures exists i :: 0 <= i < |social| && Linked(social[i]) && DockLinkOf(social[i]) == Some(l)
    {
      var k :| 0 <= k < |shown| && shown[k] == l;
      var j :| 0 <= j < |links| && DockLinkOf(links[j]) == Some(l);
      assert links[j] in links;
      var i :| 0 <= i < |social| && social[i] == links[j];
    }
  }

  /** Both docks: the quick links, whether the drawer's "Quick Links" block shows, and the social links. */
  datatype Navbar = Navbar(items: seq<NavItem>, quickLinks: bool, social: seq<DockLink>)

  function NavbarView(d: PortfolioData): (n: Navbar)
    ensures n.items == d.navbar
    ensures n.quickLinks <==> |d.navbar| > 0
    ensures n.social == Shown(SocialLinks(d.contact.social))
    ensures forall l :: l in n.social ==> exists i :: 0 <= i < |d.contact.social| && Linked(d.contact.social[i]) &&
                                                      DockLinkOf(d.contact.social[i]) == Some(l)
  {
    ShownFromSocial(d.contact.social);
    Navbar(d.navbar, |d.navbar| > 0, Shown(SocialLinks(d.contact.social)))
  }

  /**
    An entry reaches the docks exactly when it is meant for the navigation, has
    an address and names a known platform.
   */
  lemma SocialEntryShown(d: PortfolioData, i: nat)
    requires i < |d.contact.social|
    ensures var e := d.contact.social[i];
            Linked(e) && PlatformOf(e.0).Some? ==> DockLinkOf(e).value in NavbarView(d).social
  {
    var e := d.contact.social[i];
    if Linked(e) && PlatformOf(e.0).Some? {
      var links := SocialLinks(d.contact.social);
      assert e in links;
      var j :| 0 <= j < |links| && links[j] == e;
    }
  }
}
