/**
  Template 04's `GitHubContributions`: the contribution calendar for a GitHub
  username, shown only when both integration switches are on and a username is
  given. The theme and the `URL` constructor are parameters.
 */
module Github04 {
  import opened Wrappers
  import opened Seqs
  import opened Strings
  import opened Urls

  const ProfileBase := "https://github.com/"

  /**
    `cleanUsername`: for input that looks like an address (it holds "http" or
    "github.com"), the first non-empty segment of its path, read as an https
    address when it has no "http" prefix; the input itself when it does not
    look like an address, when the address does not parse, or when its path
    has no segment.
   */
  function CleanUsername(username: string, pathOf: PathOf): (r: string)
    ensures username != "" ==> r != ""
    ensures !Contains(username, "http") && !Contains(username, "github.com") ==> r == username
    ensures (Contains(username, "http") || Contains(username, "github.com")) && pathOf(WithScheme(username)).Some? ==>
              r == FirstSegment(pathOf(WithScheme(username)).value).GetOr(username)
    ensures pathOf(WithScheme(username)).None? ==> r == username
    ensures r == username || (r != "" && !Contains(r, "/"))
  {
    if Contains(username, "http") || Contains(username, "github.com") then
      match pathOf(WithScheme(username))
      case None => username
      case Some(path) => FirstSegment(path).GetOr(username)
    else username
  }

  /** A "github.com/<name>" address whose path parses as "/<name>" yields `<name>`. */
  lemma CleanProfileAddress(name: string, pathOf: PathOf)
    requires name != "" && Excludes(name, '/')
    requires pathOf("https://github.com/" + name) == Some("/" + name)
    ensures CleanUsername("github.com/" + name, pathOf) == name
  {
    var u := "github.com/" + name;
    assert MatchAt(u, "github.com", 0) by {
      assert u[..10] == "github.com";
    }
    assert !StartsWith(u, "http") by {
      assert u[..4] == "gith";
    }
    assert "https://" + u == "https://github.com/" + name;
    SegmentAfterSlash(name);
  }

  datatype Scheme = Light | Dark

  /** `theme === "dark" ? "dark" : "light"`: every other theme, "system" included, is light. */
  function SchemeOf(theme: string): (s: Scheme)
    ensures s == Dark <==> theme == "dark"
  {
    if theme == "dark" then Dark else Light
  }

  datatype Panel = Panel(username: string, profileHref: string, scheme: Scheme)

  /**
    `GitHubContributions`: nothing unless both switches (on by default) are on
    and the username is truthy; otherwise the panel for the cleaned username.
   */
  function Contributions(username: Option<string>, isIntegrationEnabled: Option<bool>, isGitHubEnabled: Option<bool>,
                         theme: string, pathOf: PathOf): (r: Option<Panel>)
    ensures r.Some? <==> isIntegrationEnabled.GetOr(true) && isGitHubEnabled.GetOr(true) && Present(username)
    ensures r.Some? ==> r.value.username == CleanUsername(username.value, pathOf) && r.value.username != ""
    ensures r.Some? ==> r.value.profileHref == ProfileBase + r.value.username
    ensures r.Some? ==> r.value.scheme == SchemeOf(theme)
  {
    if isIntegrationEnabled.GetOr(true) && isGitHubEnabled.GetOr(true) && Present(username) then
      var clean := CleanUsername(username.value, pathOf);
      Some(Panel(clean, ProfileBase + clean, SchemeOf(theme)))
    else None
  }
}
