/**
  The contact sections of templates 03 and 04: a short invitation line and a
  button that opens a Cal.com booking when a booking link is usable, with the
  visitor's avatar (photo or initials) on the button.
 */
module Contact {
  import opened Wrappers
  import opened Strings

  const CalMarker := "cal.com/"
  const DefaultPreText := "Hey, you scrolled this far, let's talk."
  const DefaultLinkText := "Book a Free Call"
  const FallbackText := "Get in Touch"
  const FallbackHref := "#contact"
  const DefaultAlt := "Profile"
  const DefaultInitials := "U"

  /** The round picture on the button: the profile photo, or an initials disc. */
  datatype Avatar = Photo(src: string, alt: string) | Initials(text: string)

  /** `profileImage ? <img alt={name || "Profile"}> : <div>{initials || "U"}</div>`. */
  function ContactAvatar(profileImage: Option<string>, name: Option<string>, initials: Option<string>): (a: Avatar)
    ensures a.Photo? <==> Present(profileImage)
    ensures a.Photo? ==> a.src == profileImage.value && a.alt != "" && (Present(name) ==> a.alt == name.value)
    ensures a.Initials? ==> a.text != "" && (Present(initials) ==> a.text == initials.value)
    ensures a.Initials? && !Present(initials) ==> a.text == DefaultInitials
    ensures a.Photo? && !Present(name) ==> a.alt == DefaultAlt
  {
    if Present(profileImage) then Photo(profileImage.value, Or(name, DefaultAlt))
    else Initials(Or(initials, DefaultInitials))
  }

  // ---------------------------------------------------------------- template 03

  /**
    `getCalUsername`: for a link holding "cal.com/", the text after it up to the
    next "cal.com/" (what `split` leaves as the second piece) and then up to the
    first "?"; a bare name with no "/" and no "http" is taken as it is; anything
    else, and an empty result, gives `null`.
   */
  function CalUsername(url: Option<string>): (r: Option<string>)
    ensures !Present(url) ==> r.None?
    ensures r.Some? ==> r.value != ""
    ensures Present(url) && Contains(url.value, CalMarker) ==>
              r == NonEmpty(Before(Before(After(url.value, CalMarker), CalMarker), "?"))
    ensures Present(url) && !Contains(url.value, CalMarker) ==>
              (r.Some? <==> !Contains(url.value, "/") && !Contains(url.value, "http")) &&
              (r.Some? ==> r.value == url.value)
  {
    if !Present(url) then None
    else
      var u := url.value;
      if Contains(u, CalMarker) then
        var parts := Split(u, CalMarker);
        SplitSecond(u, CalMarker);
        SplitFirst(parts[1], "?");
        NonEmpty(Split(parts[1], "?")[0])
      else if !(Contains(u, "/") || Contains(u, "http")) then Some(u)
      else None
  }

  /** The name in a bare booking path is recovered exactly. */
  lemma CalUsernameOfPath(name: string)
    requires name != "" && !Contains(name, CalMarker) && Excludes(name, '?')
    ensures CalUsername(Some(CalMarker + name)) == Some(name)
  {
    AfterLeading(CalMarker, name);
    BeforeAbsent(name, CalMarker);
    ContainsChar(name, '?');
    BeforeAbsent(name, "?");
  }

  /** A bare name (no "/", no "http") is a username as it stands. */
  lemma CalUsernameOfName(u: string)
    requires u != "" && Excludes(u, '/') && !Contains(u, "http")
    ensures CalUsername(Some(u)) == Some(u)
  {
    ContainsChar(u, '/');
    ContainsHasChar(u, CalMarker, 7);
  }

  /** What the section's button does. */
  datatype Button =
    | Booking(calLink: string, caption: string)    // opens the booking calendar for `calLink`
    | Fallback(href: Option<string>, opens: Option<string>, caption: string)   // a plain link or button

  datatype Section = Section(preText: string, avatar: Avatar, button: Button)

  /** Template 03's `ContactSection`: the booking dialog exactly when a username can be read off the link. */
  function ContactSection03(profileImage: Option<string>, name: Option<string>, initials: Option<string>,
                            calLink: Option<string>, preText: Option<string>, linkText: Option<string>): (s: Section)
    ensures s.preText == Or(preText, DefaultPreText) && s.preText != ""
    ensures s.avatar == ContactAvatar(profileImage, name, initials)
    ensures s.button.Booking? <==> CalUsername(calLink).Some?
    ensures s.button.Booking? ==> s.button.calLink == CalUsername(calLink).value && s.button.caption == Or(linkText, DefaultLinkText)
    ensures s.button.Fallback? ==> s.button == Fallback(Some(FallbackHref), None, FallbackText)
  {
    var button :=
      match CalUsername(calLink)
      case Some(user) => Booking(user, Or(linkText, DefaultLinkText))
      case None => Fallback(Some(FallbackHref), None, FallbackText);
    Section(Or(preText, DefaultPreText), ContactAvatar(profileImage, name, initials), button)
  }

  // ---------------------------------------------------------------- template 04

  /** The fallback button's click handler: `calLink && window.open("https://cal.com/" + calLink)`. */
  function FallbackClick(calLink: Option<string>): (r: Option<string>)
    ensures r.Some? <==> Present(calLink)
    ensures r.Some? ==> r.value == "https://cal.com/" + calLink.value
  {
    if Present(calLink) then Some("https://cal.com/" + calLink.value) else None
  }

  /**
    Template 04's `ContactSection`: nothing at all when integrations are off
    (they default to on); otherwise the booking button for a truthy link, else
    a fallback button whose click would open "https://cal.com/" + the link only
    if the link were truthy. Defaults apply to `undefined` props only.
   */
  function ContactSection04(profileImage: Option<string>, name: Option<string>, initials: Option<string>,
                            calLink: Option<string>, integrationsEnabled: Option<bool>,
                            preText: Option<string>, linkText: Option<string>): (s: Option<Section>)
    ensures s.None? <==> !integrationsEnabled.GetOr(true)
    ensures s.Some? ==> s.value.preText == preText.GetOr(DefaultPreText)
    ensures s.Some? ==> s.value.avatar == ContactAvatar(profileImage, name, initials)
    ensures s.Some? ==> (s.value.button.Booking? <==> Present(calLink))
    ensures s.Some? && s.value.button.Booking? ==> s.value.button == Booking(calLink.value, linkText.GetOr(DefaultLinkText))
  {
    if !integrationsEnabled.GetOr(true) then None
    else
      var button :=
        if Present(calLink) then Booking(calLink.value, linkText.GetOr(DefaultLinkText))
        else Fallback(None, FallbackClick(calLink), FallbackText);
      Some(Section(preText.GetOr(DefaultPreText), ContactAvatar(profileImage, name, initials), button))
  }

  /** The fallback button of template 04 never opens anything: it is only shown when there is no link to open. */
  lemma FallbackOpensNothing04(profileImage: Option<string>, name: Option<string>, initials: Option<string>,
                               calLink: Option<string>, integrationsEnabled: Option<bool>,
                               preText: Option<string>, linkText: Option<string>)
    ensures var s := ContactSection04(profileImage, name, initials, calLink, integrationsEnabled, preText, linkText);
            s.Some? && s.value.button.Fallback? ==> s.value.button.opens.None?
  {
  }
}
