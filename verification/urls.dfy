/**
  URL handling shared by the components: scheme prefixing and the first
  segment of a parsed URL's path. The `URL` constructor is not modelled; it is
  a parameter that yields the `pathname`, or `None` where the constructor
  throws.
 */
module Urls {
  import opened Wrappers
  import opened Seqs
  import opened Strings

  /** `new URL(s).pathname`, or `None` when the constructor throws. */
  type PathOf = string -> Option<string>

  /** `url.startsWith("http") ? url : "https://" + url`. */
  function WithScheme(url: string): (r: string)
    ensures StartsWith(r, "http")
    ensures StartsWith(url, "http") ==> r == url
    ensures !StartsWith(url, "http") ==> r == "https://" + url
    ensures EndsWith(r, url)
  {
    if StartsWith(url, "http") then url else "https://" + url
  }

  /** Prefixing is idempotent: a prefixed address is left alone. */
  lemma WithSchemeIdempotent(url: string)
    ensures WithScheme(WithScheme(url)) == WithScheme(url)
  {
  }

  predicate NonEmptyText(s: string) {
    s != ""
  }

  /**
    `pathname.split("/").filter(Boolean)[0]`: the first non-empty segment of
    the path, or `undefined` when every segment is empty.
   */
  function FirstSegment(path: string): (r: Option<string>)
    ensures r.Some? ==> r.value != "" && !Contains(r.value, "/")
    ensures r.Some? ==> exists i :: 0 <= i < |Split(path, "/")| && Split(path, "/")[i] == r.value &&
                                    forall j :: 0 <= j < i ==> Split(path, "/")[j] == ""
    ensures r.None? <==> forall i :: 0 <= i < |Split(path, "/")| ==> Split(path, "/")[i] == ""
  {
    SplitPieces(path, "/");
    Find(NonEmptyText, Split(path, "/"))
  }

  /** A path without `/` is its own only segment. */
  lemma SegmentOfPlain(path: string)
    requires path != "" && !Contains(path, "/")
    ensures FirstSegment(path) == Some(path)
  {
  }

  /** The path of a profile address, "/" followed by a name, has that name as its first segment. */
  lemma SegmentAfterSlash(name: string)
    requires name != "" && Excludes(name, '/')
    ensures FirstSegment("/" + name) == Some(name)
  {
    var path := "/" + name;
    AfterLeading("/", name);
    ContainsChar(name, '/');
    assert path[1..] == name && path[..0] == "";
    assert Split(name, "/") == [name];
    assert Split(path, "/") == ["", name];
    assert FindIndex(NonEmptyText, ["", name]) == Some(1);
  }
}
