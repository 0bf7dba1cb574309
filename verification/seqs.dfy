/**
  Sequence helpers shared by every component: the model of JavaScript's
  `Array.prototype.filter`, `map`, `find`, `findIndex` and `slice(0, n)`.
 */
module Seqs {
  import opened Wrappers

  /** `xs.filter(p)`: the elements satisfying `p`, in their original order. */
  function Filter<T>(p: T -> bool, xs: seq<T>): (r: seq<T>)
    ensures |r| <= |xs|
    ensures forall x :: x in r ==> x in xs && p(x)
    ensures forall i :: 0 <= i < |xs| && p(xs[i]) ==> xs[i] in r
  {
    if |xs| == 0 then []
    else (if p(xs[0]) then [xs[0]] else []) + Filter(p, xs[1..])
  }

  /** Every element of a filtered list passes the filter, index by index. */
  lemma FilterSatisfies<T>(p: T -> bool, xs: seq<T>)
    ensures forall i :: 0 <= i < |Filter(p, xs)| ==> p(Filter(p, xs)[i])
  {
    var r := Filter(p, xs);
    forall i | 0 <= i < |r|
      ensures p(r[i])
    {
      assert r[i] in r;
    }
  }

  /** Filtering distributes over concatenation, so survivors keep their relative order. */
  lemma {:induction false} FilterAppend<T>(p: T -> bool, a: seq<T>, b: seq<T>)
    ensures Filter(p, a + b) == Filter(p, a) + Filter(p, b)
    decreases |a|
  {
    if |a| == 0 {
      assert a + b == b;
    } else {
      assert (a + b)[1..] == a[1..] + b;
      FilterAppend(p, a[1..], b);
    }
  }

  /** Filtering with a predicate every element satisfies returns the input unchanged. */
  lemma {:induction false} FilterKeepsAll<T>(p: T -> bool, xs: seq<T>)
    requires forall i :: 0 <= i < |xs| ==> p(xs[i])
    ensures Filter(p, xs) == xs
    decreases |xs|
  {
    if |xs| > 0 {
      FilterKeepsAll(p, xs[1..]);
    }
  }

  /** A predicate and its negation split a sequence into two parts whose sizes add up. */
  lemma {:induction false} FilterComplementSize<T>(p: T -> bool, q: T -> bool, xs: seq<T>)
    requires forall x :: q(x) == !p(x)
    ensures |Filter(p, xs)| + |Filter(q, xs)| == |xs|
    ensures multiset(Filter(p, xs)) + multiset(Filter(q, xs)) == multiset(xs)
    decreases |xs|
  {
    if |xs| > 0 {
      FilterComplementSize(p, q, xs[1..]);
      assert xs == [xs[0]] + xs[1..];
    }
  }

  /** Something survives the filter exactly when some element passes it. */
  lemma FilterNonEmpty<T>(p: T -> bool, xs: seq<T>)
    ensures Filter(p, xs) != [] <==> exists i :: 0 <= i < |xs| && p(xs[i])
  {
    var r := Filter(p, xs);
    if r != [] {
      assert r[0] in r;
      var i :| 0 <= i < |xs| && xs[i] == r[0];
    }
  }

  /** Filtering with a predicate no element satisfies leaves nothing. */
  lemma {:induction false} FilterNone<T>(p: T -> bool, xs: seq<T>)
    requires forall i :: 0 <= i < |xs| ==> !p(xs[i])
    ensures Filter(p, xs) == []
    decreases |xs|
  {
    if |xs| > 0 {
      FilterNone(p, xs[1..]);
    }
  }

  /** `xs.map(f)`. */
  function Map<T, U>(f: T -> U, xs: seq<T>): (r: seq<U>)
    ensures |r| == |xs|
    ensures forall i :: 0 <= i < |xs| ==> r[i] == f(xs[i])
  {
    seq(|xs|, i requires 0 <= i < |xs| => f(xs[i]))
  }

  /** Every element's image is in the mapped list. */
  lemma MapHas<T, U>(f: T -> U, xs: seq<T>)
    ensures forall x :: x in xs ==> f(x) in Map(f, xs)
  {
    forall x | x in xs
      ensures f(x) in Map(f, xs)
    {
      var k :| 0 <= k < |xs| && xs[k] == x;
      assert Map(f, xs)[k] == f(x);
    }
  }

  /**
    Mapping then filtering equals filtering the inputs by the composed test, then
    mapping: an output entry survives exactly when its input entry passes the test.
   */
  lemma {:induction false} FilterMap<T, U>(p: U -> bool, f: T -> U, q: T -> bool, xs: seq<T>)
    requires forall x :: q(x) == p(f(x))
    ensures Filter(p, Map(f, xs)) == Map(f, Filter(q, xs))
    decreases |xs|
  {
    if |xs| > 0 {
      FilterMap(p, f, q, xs[1..]);
      assert Map(f, xs)[1..] == Map(f, xs[1..]);
      if q(xs[0]) {
        assert Map(f, [xs[0]] + Filter(q, xs[1..])) == [f(xs[0])] + Map(f, Filter(q, xs[1..]));
      }
    }
  }

  /** `xs.findIndex(p)`: the index of the first element satisfying `p`. */
  function FindIndex<T>(p: T -> bool, xs: seq<T>): (r: Option<nat>)
    ensures r.Some? ==> r.value < |xs| && p(xs[r.value])
    ensures r.Some? ==> forall j :: 0 <= j < r.value ==> !p(xs[j])
    ensures r.None? ==> forall j :: 0 <= j < |xs| ==> !p(xs[j])
  {
    if |xs| == 0 then None
    else if p(xs[0]) then Some(0)
    else match FindIndex(p, xs[1..])
      case None => None
      case Some(k) => Some(k + 1)
  }

  /** `xs.find(p)`: the first element satisfying `p`, or `undefined`. */
  function Find<T>(p: T -> bool, xs: seq<T>): (r: Option<T>)
    ensures r.None? <==> forall j :: 0 <= j < |xs| ==> !p(xs[j])
    ensures r.Some? ==> exists i :: 0 <= i < |xs| && xs[i] == r.value && p(xs[i]) &&
                                    forall j :: 0 <= j < i ==> !p(xs[j])
  {
    match FindIndex(p, xs)
    case None => None
    case Some(i) => Some(xs[i])
  }

  /** `Math.min`. */
  function Min(a: nat, b: nat): nat {
    if a <= b then a else b
  }

  /** `xs.slice(0, n)`: the first `n` elements, or all of them when there are fewer. */
  function Take<T>(xs: seq<T>, n: nat): (r: seq<T>)
    ensures |r| == Min(|xs|, n)
    ensures r == xs[..|r|]
  {
    xs[..Min(|xs|, n)]
  }

  /** `xs.slice(n)`: everything after the first `n` elements. */
  function Drop<T>(xs: seq<T>, n: nat): (r: seq<T>)
    ensures Take(xs, n) + r == xs
  {
    xs[Min(|xs|, n)..]
  }

  /**
    The "+N more" counter shown next to a capped badge list: present exactly when
    the list is longer than the cap, and then counting the hidden elements.
   */
  function MoreCount(len: nat, cap: nat): (r: Option<nat>)
    ensures r.Some? <==> len > cap
    ensures r.Some? ==> r.value > 0 && cap + r.value == len
  {
    if len > cap then Some(len - cap) else None
  }

  /** A list shown up to a cap, with the "+N more" counter for the rest. */
  datatype Capped<T> = Capped(shown: seq<T>, more: Option<nat>)

  /** `xs.slice(0, cap)` together with `xs.length > cap && "+" + (xs.length - cap)`. */
  function Cap<T>(xs: seq<T>, cap: nat): (r: Capped<T>)
    ensures |r.shown| <= cap && |r.shown| <= |xs| && r.shown == xs[..|r.shown|]
    ensures |r.shown| + r.more.GetOr(0) == |xs|
    ensures r.more.Some? <==> |xs| > cap
    ensures r.more.Some? ==> r.more.value > 0
    ensures r.shown == [] <==> xs == [] || cap == 0
  {
    Capped(Take(xs, cap), MoreCount(|xs|, cap))
  }
}
