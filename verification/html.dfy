/**
  `stripHtml`: `html.replace(/<[^>]*>?/gm, "")` after a falsy guard. The
  global replacement scans left to right; each `<` starts a match that runs
  through the next `>` (or to the end of the text when there is none) and is
  deleted. Text outside such matches is kept as it is.
 */
module Html {
  import opened Wrappers
  import opened Strings

  /** What follows a tag opened just before `t`: the text after the first `>`, or nothing if there is none. */
  function AfterTag(t: string): (r: string)
    ensures |r| <= |t| && r == t[|t| - |r|..]
    ensures Excludes(t, '>') ==> r == ""
    decreases |t|
  {
    if |t| == 0 then ""
    else if t[0] == '>' then t[1..]
    else AfterTag(t[1..])
  }

  /** The regular-expression replacement on a present string. */
  function StripTags(s: string): (r: string)
    ensures |r| <= |s|
    ensures Excludes(r, '<')
    ensures Excludes(s, '<') ==> r == s
    decreases |s|
  {
    if |s| == 0 then ""
    else if s[0] != '<' then
      var rest := StripTags(s[1..]);
      assert Excludes(s[1..], '<') ==> rest == s[1..];
      [s[0]] + rest
    else StripTags(AfterTag(s[1..]))
  }

  /** `stripHtml(html)`: "" for `null`, `undefined` and "", else the tags removed. */
  function StripHtml(html: Option<string>): (r: string)
    ensures !Present(html) ==> r == ""
    ensures Excludes(r, '<')
    ensures html.Some? ==> |r| <= |html.value|
    ensures html.Some? && Excludes(html.value, '<') ==> r == html.value
  {
    if !Present(html) then "" else StripTags(html.value)
  }

  /** Stripping is idempotent: a stripped text has nothing left to strip. */
  lemma StripIdempotent(s: string)
    ensures StripTags(StripTags(s)) == StripTags(s)
  {
  }

  /** Text without `<` passes through, and the scan continues after it unchanged. */
  lemma {:induction false} StripPlainPrefix(a: string, b: string)
    requires Excludes(a, '<')
    ensures StripTags(a + b) == a + StripTags(b)
    decreases |a|
  {
    if |a| == 0 {
      assert a + b == b;
    } else {
      assert a + b == [a[0]] + (a[1..] + b);
      StripCons(a[0], a[1..] + b);
      StripPlainPrefix(a[1..], b);
      assert a == [a[0]] + a[1..];
    }
  }

  /** A first character other than `<` is kept, and the scan goes on after it. */
  lemma StripCons(c: char, rest: string)
    requires c != '<'
    ensures StripTags([c] + rest) == [c] + StripTags(rest)
  {
    assert ([c] + rest)[1..] == rest;
  }

  /** A closed tag `<t>` (where `t` holds no `>`) disappears together with its delimiters. */
  lemma {:induction false} StripClosedTag(t: string, b: string)
    requires Excludes(t, '>')
    ensures StripTags("<" + t + ">" + b) == StripTags(b)
  {
    var s := "<" + t + ">" + b;
    assert s[1..] == t + ">" + b;
    AfterClosed(t, b);
  }

  lemma {:induction false} AfterClosed(t: string, b: string)
    requires Excludes(t, '>')
    ensures AfterTag(t + ">" + b) == b
    decreases |t|
  {
    if |t| == 0 {
      assert t + ">" + b == ">" + b;
    } else {
      assert (t + ">" + b)[0] == t[0];
      assert (t + ">" + b)[1..] == t[1..] + ">" + b;
      AfterClosed(t[1..], b);
    }
  }

  /** An unclosed tag swallows the rest of the text. */
  lemma StripOpenTag(t: string)
    requires Excludes(t, '>')
    ensures StripTags("<" + t) == ""
  {
    assert ("<" + t)[1..] == t;
  }
}
