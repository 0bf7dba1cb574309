/**
  `extractUsername`: classifies the request's host into a portfolio username.
  A host of three or more labels is valid on the two base domains unless its first
  label is reserved; a two-label host is valid when its second label mentions
  "localhost" (local development).
 */
module Host {
  import opened Wrappers
  import opened Strings

  /** The two headers the classifier reads; `headers.get` yields `null` for a missing one. */
  datatype Headers = Headers(host: Option<string>, forwardedHost: Option<string>)

  datatype Classified = Classified(username: string, hasValidSubdomain: bool)

  const BaseDomains: seq<string> := ["buildarclabs.in", "cofounds.in"]

  const Reserved: seq<string> := ["www", "api", "admin", "app", "mail", "blog", "docs"]

  /** `x-forwarded-host || host || ''`. */
  function ActualHost(h: Headers): (r: string)
    ensures Present(h.forwardedHost) ==> r == h.forwardedHost.value
    ensures !Present(h.forwardedHost) ==> r == Or(h.host, "")
  {
    if Present(h.forwardedHost) then h.forwardedHost.value else Or(h.host, "")
  }

  /** The dot-separated labels of the host. */
  function Labels(h: Headers): (r: seq<string>)
    ensures |r| >= 1
    ensures forall i :: 0 <= i < |r| ==> Excludes(r[i], '.')
    ensures Join(r, ".") == ActualHost(h)
  {
    var r := Split(ActualHost(h), ".");
    SplitPieces(ActualHost(h), ".");
    forall i | 0 <= i < |r| ensures Excludes(r[i], '.') {
      ContainsChar(r[i], '.');
    }
    JoinSplit(ActualHost(h), ".");
    r
  }

  /** `extractUsername`. */
  function ExtractUsername(h: Headers): (r: Classified)
    ensures !r.hasValidSubdomain ==> r.username == ""
    ensures r.hasValidSubdomain ==> r.username == Labels(h)[0]
    ensures |Labels(h)| >= 3 ==>
      (r.hasValidSubdomain <==> Join(Labels(h)[1..], ".") in BaseDomains && Lower(Labels(h)[0]) !in Reserved)
    ensures |Labels(h)| == 2 ==> (r.hasValidSubdomain <==> Contains(Labels(h)[1], "localhost"))
    ensures |Labels(h)| == 1 ==> !r.hasValidSubdomain
  {
    var host := ActualHost(h);
    if host == "" then
      assert Labels(h) == [""];
      Classified("", false)
    else
      var parts := Labels(h);
      if |parts| >= 3 then
        var domain := Join(parts[1..], ".");
        if domain == "buildarclabs.in" || domain == "cofounds.in" then
          if Lower(parts[0]) !in Reserved then Classified(parts[0], true)
          else Classified("", false)
        else Classified("", false)
      else if |parts| >= 2 && (parts[1] == "localhost" || Contains(parts[1], "localhost")) then
        Classified(parts[0], true)
      else Classified("", false)
  }

  /** The splitting of a dot-free list of labels joined by dots. */
  lemma LabelsOf(host: string, xs: seq<string>)
    requires |xs| >= 1 && Join(xs, ".") == host
    requires forall i :: 0 <= i < |xs| ==> Excludes(xs[i], '.')
    ensures Split(host, ".") == xs
  {
    SplitJoin(xs, '.');
  }

  /**
    The base-domain test on the joined labels, read label by label: for a base
    domain `a.b`, the labels after the first spell it exactly when they are `a`, `b`.
   */
  lemma BaseDomainLabels(h: Headers, a: string, b: string)
    requires |Labels(h)| >= 3
    requires a + "." + b in BaseDomains && Excludes(a, '.') && Excludes(b, '.')
    ensures Join(Labels(h)[1..], ".") == a + "." + b <==> Labels(h)[1..] == [a, b]
  {
    TwoLabels(Labels(h)[1..], a + "." + b, a, b);
  }

  /** Each base domain is two dot-free labels joined by a dot. */
  lemma BaseDomainParts()
    ensures "buildarclabs.in" == "buildarclabs" + "." + "in"
    ensures "cofounds.in" == "cofounds" + "." + "in"
    ensures Excludes("buildarclabs", '.') && Excludes("cofounds", '.') && Excludes("in", '.')
  {
  }

  /** Dot-free labels joined by dots spell `a.b` exactly when they are `a` and `b`. */
  lemma TwoLabels(rest: seq<string>, d: string, a: string, b: string)
    requires d == a + "." + b && Excludes(a, '.') && Excludes(b, '.')
    requires |rest| >= 1 && forall i :: 0 <= i < |rest| ==> Excludes(rest[i], '.')
    ensures Join(rest, ".") == d <==> rest == [a, b]
  {
    if Join(rest, ".") == d {
      SplitJoin(rest, '.');
      SplitJoin([a, b], '.');
    }
    if rest == [a, b] {
      assert Join(rest, ".") == a + "." + Join([b], ".");
    }
  }

  // ---------------------------------------------------------------- examples

  lemma SubdomainLabels()
    ensures Labels(Headers(Some("alice.cofounds.in"), None)) == ["alice", "cofounds", "in"]
  {
    LabelsOf("alice.cofounds.in", ["alice", "cofounds", "in"]);
  }

  lemma ReservedLabels()
    ensures Labels(Headers(Some("Www.cofounds.in"), None)) == ["Www", "cofounds", "in"]
  {
    LabelsOf("Www.cofounds.in", ["Www", "cofounds", "in"]);
  }

  lemma LocalhostLabels()
    ensures Labels(Headers(Some("bob.localhost:3000"), None)) == ["bob", "localhost:3000"]
  {
    LabelsOf("bob.localhost:3000", ["bob", "localhost:3000"]);
  }

  lemma ExampleFacts()
    ensures Join(["cofounds", "in"], ".") == "cofounds.in"
    ensures Lower("alice") == "alice" && Lower("Www") == "www"
    ensures MatchAt("localhost:3000", "localhost", 0)
  {
  }

  lemma SubdomainByLabels(h: Headers)
    requires Labels(h) == ["alice", "cofounds", "in"]
    ensures ExtractUsername(h) == Classified("alice", true)
  {
    ExampleFacts();
  }

  lemma ReservedByLabels(h: Headers)
    requires Labels(h) == ["Www", "cofounds", "in"]
    ensures ExtractUsername(h) == Classified("", false)
  {
    ExampleFacts();
  }

  lemma LocalhostByLabels(h: Headers)
    requires Labels(h) == ["bob", "localhost:3000"]
    ensures ExtractUsername(h) == Classified("bob", true)
  {
    ExampleFacts();
  }

  /**
    A subdomain of a base domain is its username; a reserved subdomain is rejected
    whatever its case; a two-label development host with a port is accepted.
   */
  lemma Examples()
    ensures ExtractUsername(Headers(Some("alice.cofounds.in"), None)) == Classified("alice", true)
    ensures ExtractUsername(Headers(Some("Www.cofounds.in"), None)) == Classified("", false)
    ensures ExtractUsername(Headers(Some("bob.localhost:3000"), None)) == Classified("bob", true)
  {
    SubdomainLabels();
    ReservedLabels();
    LocalhostLabels();
    SubdomainByLabels(Headers(Some("alice.cofounds.in"), None));
    ReservedByLabels(Headers(Some("Www.cofounds.in"), None));
    LocalhostByLabels(Headers(Some("bob.localhost:3000"), None));
  }
}
