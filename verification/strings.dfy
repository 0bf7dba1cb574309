/**
  Strings as `seq<char>`: the JavaScript string operations the components use.
  Case mapping is ASCII-only; whitespace is the ECMAScript WhiteSpace and
  LineTerminator set that `trim()` and the regular expression class `\s` use.
 */
module Strings {
  import opened Wrappers
  import opened Seqs

  /** JavaScript truthiness of a `string | null | undefined`: present and non-empty. */
  predicate Present(x: Option<string>) {
    x.Some? && x.value != ""
  }

  /** `x || d` for an optional string. */
  function Or(x: Option<string>, d: string): string {
    if Present(x) then x.value else d
  }

  // ---------------------------------------------------------------- case

  function LowerChar(c: char): char {
    if 'A' <= c <= 'Z' then (c as int + 32) as char else c
  }

  function UpperChar(c: char): char {
    if 'a' <= c <= 'z' then (c as int - 32) as char else c
  }

  /** `s.toLowerCase()`, restricted to ASCII letters. */
  function Lower(s: string): (r: string)
    ensures |r| == |s|
    ensures forall i :: 0 <= i < |s| ==> r[i] == LowerChar(s[i])
  {
    seq(|s|, i requires 0 <= i < |s| => LowerChar(s[i]))
  }

  /** `s.toUpperCase()`, restricted to ASCII letters. */
  function Upper(s: string): (r: string)
    ensures |r| == |s|
    ensures forall i :: 0 <= i < |s| ==> r[i] == UpperChar(s[i])
  {
    seq(|s|, i requires 0 <= i < |s| => UpperChar(s[i]))
  }

  /** `s.charAt(0).toUpperCase()`: the upper-cased first character, or "" for "". */
  function Initial(s: string): (r: string)
    ensures |r| <= 1
    ensures r == "" <==> s == ""
    ensures s != "" ==> r == [UpperChar(s[0])]
  {
    if s == "" then "" else [UpperChar(s[0])]
  }

  // ---------------------------------------------------------------- search

  predicate StartsWith(s: string, p: string) {
    |p| <= |s| && s[..|p|] == p
  }

  predicate EndsWith(s: string, p: string) {
    |p| <= |s| && s[|s| - |p|..] == p
  }

  /** `p` occurs in `s` at index `j`. */
  predicate MatchAt(s: string, p: string, j: int) {
    0 <= j && j + |p| <= |s| && s[j..j + |p|] == p
  }

  lemma MatchShift(s: string, p: string, j: nat)
    requires |s| > 0
    ensures MatchAt(s[1..], p, j) <==> MatchAt(s, p, j + 1)
  {
    if j + |p| <= |s[1..]| {
      assert s[1..][j..j + |p|] == s[j + 1..j + 1 + |p|];
    }
  }

  lemma MatchPrefix(s: string, p: string, n: nat, j: int)
    requires n <= |s|
    ensures MatchAt(s[..n], p, j) ==> MatchAt(s, p, j) && j + |p| <= n
  {
    if MatchAt(s[..n], p, j) {
      assert s[..n][j..j + |p|] == s[j..j + |p|];
    }
  }

  /** `s.indexOf(p)`: the first index at which `p` occurs, if any. */
  function IndexOf(s: string, p: string): (r: Option<nat>)
    ensures r.Some? ==> MatchAt(s, p, r.value)
    ensures r.Some? ==> forall j :: 0 <= j < r.value ==> !MatchAt(s, p, j)
    ensures r.None? ==> forall j :: !MatchAt(s, p, j)
    decreases |s|
  {
    if |s| < |p| then None
    else if s[..|p|] == p then Some(0)
    else
      var rest := IndexOf(s[1..], p);
      assert forall j: nat :: MatchAt(s[1..], p, j) <==> MatchAt(s, p, j + 1) by {
        forall j: nat ensures MatchAt(s[1..], p, j) <==> MatchAt(s, p, j + 1) {
          MatchShift(s, p, j);
        }
      }
      assert !MatchAt(s, p, 0);
      match rest
      case None =>
        assert forall j :: 0 < j ==> !MatchAt(s, p, j) by {
          forall j | 0 < j ensures !MatchAt(s, p, j) {
            MatchShift(s, p, j - 1);
          }
        }
        None
      case Some(k) =>
        assert forall j :: 0 < j < k + 1 ==> !MatchAt(s, p, j) by {
          forall j | 0 < j < k + 1 ensures !MatchAt(s, p, j) {
            MatchShift(s, p, j - 1);
          }
        }
        Some(k + 1)
  }

  /** `s.includes(p)`. */
  predicate Contains(s: string, p: string) {
    IndexOf(s, p).Some?
  }

  // ---------------------------------------------------------------- split and join

  /** `s.split(sep)` for a non-empty separator string. */
  function Split(s: string, sep: string): (r: seq<string>)
    requires |sep| > 0
    ensures |r| >= 1
    decreases |s|
  {
    match IndexOf(s, sep)
    case None => [s]
    case Some(i) => [s[..i]] + Split(s[i + |sep|..], sep)
  }

  /** `xs.join(sep)`. */
  function Join(xs: seq<string>, sep: string): string
    decreases |xs|
  {
    if |xs| == 0 then ""
    else if |xs| == 1 then xs[0]
    else xs[0] + sep + Join(xs[1..], sep)
  }

  /** Joining the pieces of a split with the same separator gives the original string back. */
  lemma {:induction false} JoinSplit(s: string, sep: string)
    requires |sep| > 0
    ensures Join(Split(s, sep), sep) == s
    decreases |s|
  {
    match IndexOf(s, sep)
    case None =>
    case Some(i) =>
      var head, rest := s[..i], s[i + |sep|..];
      JoinSplit(rest, sep);
      SplitAt(s, sep, i);
      JoinCons(head, Split(rest, sep), sep);
      CutAt(s, i, |sep|);
  }

  /** Where the first separator is found, the split is the text before it and the split of the text after it. */
  lemma SplitAt(s: string, sep: string, i: nat)
    requires |sep| > 0 && IndexOf(s, sep) == Some(i)
    ensures Split(s, sep) == [s[..i]] + Split(s[i + |sep|..], sep)
  {
  }

  /** A text is its part before `i`, the `n` characters from `i`, and the rest. */
  lemma CutAt(s: string, i: nat, n: nat)
    requires i + n <= |s|
    ensures s == s[..i] + s[i..i + n] + s[i + n..]
  {
  }

  /** Joining a list with a first piece in front puts the piece and a separator before the rest's join. */
  lemma JoinCons(x: string, tail: seq<string>, sep: string)
    requires |tail| >= 1
    ensures Join([x] + tail, sep) == x + sep + Join(tail, sep)
  {
    assert ([x] + tail)[1..] == tail;
  }

  /** The text of `s` before the first `sep`, or all of `s` when `sep` does not occur. */
  function Before(s: string, sep: string): (r: string)
    requires |sep| > 0
    ensures |r| <= |s| && r == s[..|r|]
    ensures !Contains(r, sep)
    ensures r == s || MatchAt(s, sep, |r|)
  {
    match IndexOf(s, sep)
    case None => s
    case Some(i) =>
      assert !Contains(s[..i], sep) by {
        var k := IndexOf(s[..i], sep);
        if k.Some? {
          MatchPrefix(s, sep, i, k.value);
        }
      }
      s[..i]
  }

  /** The text of `s` after the first `sep`, or "" when `sep` does not occur. */
  function After(s: string, sep: string): (r: string)
    requires |sep| > 0
    ensures Contains(s, sep) ==> s == Before(s, sep) + sep + r
  {
    match IndexOf(s, sep)
    case None => ""
    case Some(i) =>
      assert s == s[..i] + s[i..i + |sep|] + s[i + |sep|..];
      s[i + |sep|..]
  }

  /** `s.split(sep)[0]` is the text before the first separator. */
  lemma SplitFirst(s: string, sep: string)
    requires |sep| > 0
    ensures Split(s, sep)[0] == Before(s, sep)
  {
  }

  /** `s.split(sep)[1]` exists exactly when `sep` occurs, and is the text between the first and second separator. */
  lemma SplitSecond(s: string, sep: string)
    requires |sep| > 0
    ensures |Split(s, sep)| >= 2 <==> Contains(s, sep)
    ensures Contains(s, sep) ==> Split(s, sep)[1] == Before(After(s, sep), sep)
  {
    match IndexOf(s, sep)
    case None =>
    case Some(i) =>
      SplitFirst(s[i + |sep|..], sep);
  }

  /** No piece of a split contains the separator. */
  lemma {:induction false} SplitPieces(s: string, sep: string)
    requires |sep| > 0
    ensures forall i :: 0 <= i < |Split(s, sep)| ==> !Contains(Split(s, sep)[i], sep)
    decreases |s|
  {
    SplitFirst(s, sep);
    match IndexOf(s, sep)
    case None =>
    case Some(i) =>
      SplitPieces(s[i + |sep|..], sep);
  }

  /** `c` does not occur in `s`. */
  predicate Excludes(s: string, c: char) {
    forall j :: 0 <= j < |s| ==> s[j] != c
  }

  /** A one-character string occurs in `s` exactly when its character does. */
  lemma ContainsChar(s: string, c: char)
    ensures Contains(s, [c]) <==> !Excludes(s, c)
  {
    if Excludes(s, c) {
      forall k | 0 <= k < |s|
        ensures !MatchAt(s, [c], k)
      {
        assert s[k..k + 1] == [s[k]];
      }
    } else {
      var j :| 0 <= j < |s| && s[j] == c;
      assert s[j..j + 1] == [c];
      assert MatchAt(s, [c], j);
    }
  }

  /**
    Splitting a join of pieces that do not contain a one-character separator gives
    the pieces back: the inverse of `JoinSplit`.
   */
  lemma {:induction false} SplitJoin(xs: seq<string>, c: char)
    requires |xs| >= 1
    requires forall i :: 0 <= i < |xs| ==> Excludes(xs[i], c)
    ensures Split(Join(xs, [c]), [c]) == xs
    decreases |xs|
  {
    if |xs| == 1 {
      assert Join(xs, [c]) == xs[0];
      ContainsChar(xs[0], c);
    } else {
      var a := xs[0];
      var j := Join(xs[1..], [c]);
      var s := a + [c] + j;
      assert Join(xs, [c]) == s;
      assert MatchAt(s, [c], |a|) by {
        assert s[|a|..|a| + 1] == [c];
      }
      forall m | 0 <= m < |a|
        ensures !MatchAt(s, [c], m)
      {
        assert s[m..m + 1] == [a[m]];
      }
      assert IndexOf(s, [c]) == Some(|a|);
      assert s[..|a|] == a;
      assert s[|a| + 1..] == j;
      SplitJoin(xs[1..], c);
    }
  }

  /** `s.replace(p, q)` with a string pattern: only the first occurrence is replaced. */
  function ReplaceFirst(s: string, p: string, q: string): string
    requires |p| > 0
  {
    match IndexOf(s, p)
    case None => s
    case Some(i) => s[..i] + q + s[i + |p|..]
  }

  // ---------------------------------------------------------------- whitespace

  /** ECMAScript WhiteSpace or LineTerminator: what `trim()` removes and `\s` matches. */
  predicate IsSpace(c: char) {
    var n := c as int;
    n == 0x20 || 0x09 <= n <= 0x0D || n == 0xA0 || n == 0x1680 || 0x2000 <= n <= 0x200A ||
    n == 0x2028 || n == 0x2029 || n == 0x202F || n == 0x205F || n == 0x3000 || n == 0xFEFF
  }

  /** ECMAScript LineTerminator: what the regular expression `.` does not match. */
  predicate IsLineTerminator(c: char) {
    c == '\n' || c == '\r' || c as int == 0x2028 || c as int == 0x2029
  }

  predicate AllSpace(s: string) {
    forall i :: 0 <= i < |s| ==> IsSpace(s[i])
  }

  function TrimStart(s: string): (r: string)
    ensures |r| <= |s| && r == s[|s| - |r|..]
    ensures r != [] ==> !IsSpace(r[0])
    ensures AllSpace(s[..|s| - |r|])
    ensures |s| > 0 && IsSpace(s[0]) ==> |r| < |s|
    ensures |s| > 0 && !IsSpace(s[0]) ==> r == s
    decreases |s|
  {
    if |s| > 0 && IsSpace(s[0]) then
      var r := TrimStart(s[1..]);
      assert s[..|s| - |r|] == [s[0]] + s[1..][..|s[1..]| - |r|];
      r
    else s
  }

  function TrimEnd(s: string): (r: string)
    ensures |r| <= |s| && r == s[..|r|]
    ensures r != [] ==> !IsSpace(r[|r| - 1])
    ensures AllSpace(s[|r|..])
    ensures |s| > 0 && !IsSpace(s[|s| - 1]) ==> r == s
    decreases |s|
  {
    if |s| > 0 && IsSpace(s[|s| - 1]) then
      var r := TrimEnd(s[..|s| - 1]);
      assert s[|r|..] == s[..|s| - 1][|r|..] + [s[|s| - 1]];
      r
    else s
  }

  /** `s.trim()`: the string without leading and trailing whitespace. */
  function Trim(s: string): (r: string)
    ensures |r| <= |s|
    ensures r != [] ==> !IsSpace(r[0]) && !IsSpace(r[|r| - 1])
    ensures r == [] <==> AllSpace(s)
    ensures s == [] || (!IsSpace(s[0]) && !IsSpace(s[|s| - 1])) ==> r == s
  {
    TrimProps(s);
    TrimEnd(TrimStart(s))
  }

  lemma TrimProps(s: string)
    ensures var r := TrimEnd(TrimStart(s));
      && (r != [] ==> r[0] == TrimStart(s)[0])
      && (r == [] <==> AllSpace(s))
  {
    var a := TrimStart(s);
    var r := TrimEnd(a);
    if r != [] {
      assert r[0] == a[0];
    }
    if a == [] {
      assert s[..|s|] == s;
    }
    if a != [] {
      assert a[0] == s[|s| - |a|];
    }
  }

  /** `s.trim() === ""` for a present string; `null` and `undefined` count as blank too. */
  predicate Blank(x: Option<string>) {
    x.None? || Trim(x.value) == ""
  }

  /** No character of `w` is whitespace. */
  predicate SpaceFree(w: string) {
    forall j :: 0 <= j < |w| ==> !IsSpace(w[j])
  }

  /** The result shape of `split(/\s+/)`: no piece holds whitespace, and only the first or last may be empty. */
  predicate WordList(ws: seq<string>) {
    && |ws| >= 1
    && (forall i :: 0 <= i < |ws| ==> SpaceFree(ws[i]))
    && (forall i :: 0 < i < |ws| - 1 ==> ws[i] != "")
  }

  /**
    `s.split(/\s+/)`: the pieces between maximal runs of whitespace. A leading
    (trailing) run yields an empty first (last) piece; "" yields [""].
   */
  function Words(s: string): (r: seq<string>)
    ensures WordList(r)
    ensures |s| > 0 && !IsSpace(s[0]) ==> r[0] != ""
    ensures s == "" ==> r == [""]
    ensures SpaceFree(s) ==> r == [s]
    decreases |s|
  {
    match FindIndex(IsSpace, s)
    case None => [s]
    case Some(i) =>
      var t := TrimStart(s[i..]);
      assert s[i..][0] == s[i];
      var w := Words(t);
      assert SpaceFree(s[..i]);
      [s[..i]] + w
  }

  /** The first whitespace of `a + " " + j` is the separator when `a` has none. */
  lemma FirstSpace(a: string, j: string)
    requires SpaceFree(a)
    ensures FindIndex(IsSpace, a + " " + j) == Some(|a|)
  {
    var s := a + " " + j;
    assert IsSpace(s[|a|]);
    assert forall m :: 0 <= m < |a| ==> s[m] == a[m];
  }

  /** One step of `Words` on a space-free word, one space and a rest that does not start with whitespace. */
  lemma WordsCons(a: string, j: string)
    requires SpaceFree(a)
    requires j == "" || !IsSpace(j[0])
    ensures Words(a + " " + j) == [a] + Words(j)
  {
    var s := a + " " + j;
    FirstSpace(a, j);
    assert s[..|a|] == a;
    assert s[|a|..] == " " + j;
    assert TrimStart(" " + j) == TrimStart(j) by {
      assert (" " + j)[1..] == j;
    }
  }

  /**
    Re-splitting words joined by single spaces gives the same words back, provided
    none holds whitespace and only the first or last may be empty (as `Words` ensures).
   */
  lemma {:induction false} WordsJoin(ws: seq<string>)
    requires WordList(ws)
    ensures Words(Join(ws, " ")) == ws
    decreases |ws|
  {
    if |ws| == 1 {
      assert Join(ws, " ") == ws[0];
      assert SpaceFree(ws[0]);
    } else {
      var rest := ws[1..];
      assert WordList(rest) by {
        assert forall i :: 0 <= i < |rest| ==> rest[i] == ws[i + 1];
      }
      WordsJoin(rest);
      JoinHead(rest);
      assert SpaceFree(ws[0]);
      WordsCons(ws[0], Join(rest, " "));
    }
  }

  /** A join of space-free words whose first word is non-empty (or that is a single word) does not start with whitespace. */
  lemma {:induction false} JoinHead(ws: seq<string>)
    requires |ws| >= 1
    requires forall i :: 0 <= i < |ws| ==> SpaceFree(ws[i])
    requires |ws| >= 2 ==> ws[0] != ""
    ensures Join(ws, " ") == "" || !IsSpace(Join(ws, " ")[0])
  {
    if |ws| >= 2 {
      assert Join(ws, " ")[0] == ws[0][0];
    }
  }

  // ---------------------------------------------------------------- further facts

  /** Lower-casing is idempotent. */
  lemma LowerIdempotent(s: string)
    ensures Lower(Lower(s)) == Lower(s)
  {
  }

  /** Lower-casing forgets the case the text was written in. */
  lemma LowerUpper(s: string)
    ensures Lower(Upper(s)) == Lower(s)
  {
  }

  /** A string that starts with the separator splits right after it. */
  lemma AfterLeading(sep: string, rest: string)
    requires |sep| > 0
    ensures IndexOf(sep + rest, sep) == Some(0)
    ensures After(sep + rest, sep) == rest
  {
    assert (sep + rest)[..|sep|] == sep;
    assert (sep + rest)[|sep|..] == rest;
  }

  /** Without the separator there is nothing to cut: `Before` is the whole string. */
  lemma BeforeAbsent(s: string, sep: string)
    requires |sep| > 0 && !Contains(s, sep)
    ensures Before(s, sep) == s
  {
  }

  /** `s || null`: the string when it is non-empty. */
  function NonEmpty(s: string): (r: Option<string>)
    ensures r.Some? <==> s != ""
    ensures r.Some? ==> r.value == s
  {
    if s == "" then None else Some(s)
  }

  /** Every character of an occurring pattern occurs in the text too. */
  lemma ContainsHasChar(s: string, p: string, k: nat)
    requires k < |p|
    ensures Contains(s, p) ==> !Excludes(s, p[k])
  {
    if Contains(s, p) {
      var i := IndexOf(s, p).value;
      assert s[i..i + |p|][k] == s[i + k];
    }
  }

  /** Wherever a pattern occurs, its every prefix occurs too. */
  lemma ContainsPrefix(s: string, p: string, q: string)
    ensures Contains(s, p + q) ==> Contains(s, p)
  {
    if Contains(s, p + q) {
      var i := IndexOf(s, p + q).value;
      assert s[i..i + |p|] == (p + q)[..|p|] == p;
      assert MatchAt(s, p, i);
    }
  }
}
