/**
  The server-rendered entry page: classify the request's host, fetch the
  portfolio for the subdomain's username and pick one of three views. The
  fetch is an input (`fetch` maps a username to what the network call did),
  so the model says what the page makes of every possible answer.
 */
module ServerPage {
  import opened Wrappers
  import opened Strings
  import opened Profile
  import opened Normalize
  import opened Host

  /**
    The `data` of a response: a profile `transformUserData` accepts, or one
    whose shape makes it throw (an entry that is `null`, say).
   */
  datatype Payload = Wellformed(profile: UserProfile) | Malformed

  datatype Response = Response(success: bool, data: Option<Payload>, message: Option<string>)

  /** What `await fetchPortfolio(username)` did: threw, or resolved to a response. */
  datatype FetchOutcome = Threw | Responded(response: Response)

  type Fetcher = string -> FetchOutcome

  datatype View = NoSubdomain | ErrorPage(username: string) | Content(data: PortfolioData)

  /** The chosen view, the username fetched (if any) and the error text the page computed. */
  datatype Outcome = Outcome(fetched: Option<string>, error: Option<string>, view: View)

  const NotFound := "Portfolio not found"
  const LoadFailed := "Failed to load portfolio"

  /** The `try`/`catch` block: either portfolio data or an error text, never both, never neither. */
  function Load(yearOf: YearOf, o: FetchOutcome): (r: (Option<PortfolioData>, Option<string>))
    ensures r.0.Some? <==> r.1.None?
    ensures r.1.Some? ==> r.1.value != ""
    ensures o.Threw? ==> r.1 == Some(LoadFailed)
    ensures o.Responded? && !o.response.success ==> r.1 == Some(Or(o.response.message, NotFound))
    ensures o.Responded? && o.response.data.None? ==> r.1 == Some(Or(o.response.message, NotFound))
  {
    match o
    case Threw => (None, Some(LoadFailed))
    case Responded(resp) =>
      if resp.success && resp.data.Some? then
        match resp.data.value
        case Wellformed(u) => (Some(TransformUserData(yearOf, u)), None)
        case Malformed => (None, Some(LoadFailed))
      else (None, Some(Or(resp.message, NotFound)))
  }

  /** `Page()`: the no-subdomain page, the error page for the username, or the portfolio. */
  function Page(yearOf: YearOf, h: Headers, fetch: Fetcher): (r: Outcome)
    ensures !ExtractUsername(h).hasValidSubdomain <==> r.view == NoSubdomain
    ensures !ExtractUsername(h).hasValidSubdomain ==> r.fetched == None
    ensures ExtractUsername(h).hasValidSubdomain ==> r.fetched == Some(ExtractUsername(h).username)
    ensures r.view.ErrorPage? ==> r.view.username == ExtractUsername(h).username && r.error.Some?
    ensures r.view.Content? ==> r.error.None?
  {
    var c := ExtractUsername(h);
    if !c.hasValidSubdomain then Outcome(None, None, NoSubdomain)
    else
      var (data, error) := Load(yearOf, fetch(c.username));
      if Present(error) || data.None? then Outcome(Some(c.username), error, ErrorPage(c.username))
      else Outcome(Some(c.username), None, Content(data.value))
  }

  /** The fetch answer for which the page shows content: a successful response carrying a well-formed profile. */
  predicate Serves(o: FetchOutcome) {
    o.Responded? && o.response.success && o.response.data.Some? && o.response.data.value.Wellformed?
  }

  /**
    For a valid subdomain the page shows content exactly when the fetch serves
    a profile, and then the content is that profile transformed; every other
    answer, a thrown fetch or a throwing transformation included, ends on the
    error page for the username.
   */
  lemma PageOutcomes(yearOf: YearOf, h: Headers, fetch: Fetcher)
    requires ExtractUsername(h).hasValidSubdomain
    ensures var o := fetch(ExtractUsername(h).username);
            Page(yearOf, h, fetch).view ==
              if Serves(o) then Content(TransformUserData(yearOf, o.response.data.value.profile))
              else ErrorPage(ExtractUsername(h).username)
  {
  }

  /** An invalid subdomain never consults the fetcher: two fetchers give the same outcome. */
  lemma NoFetchWithoutSubdomain(yearOf: YearOf, h: Headers, f: Fetcher, g: Fetcher)
    requires !ExtractUsername(h).hasValidSubdomain
    ensures Page(yearOf, h, f) == Page(yearOf, h, g)
  {
  }
}
