/**
 * The array operations the storefront relies on, over sequences:
 * `Array.prototype.filter` (Select) and `[...new Set(xs)]` (Distinct).
 */
module Collections {

  /** `xs` can be obtained from `ys` by deleting elements, keeping the order of the rest. */
  ghost predicate IsSubsequence<T>(xs: seq<T>, ys: seq<T>)
    decreases |ys|
  {
    || xs == []
    || (ys != [] && ((xs[0] == ys[0] && IsSubsequence(xs[1..], ys[1..])) || IsSubsequence(xs, ys[1..])))
  }

  /** `xs.filter(keep)`. */
  function Select<T(!new)>(xs: seq<T>, keep: T -> bool): (r: seq<T>)
    ensures IsSubsequence(r, xs)
    ensures forall x :: multiset(r)[x] == if keep(x) then multiset(xs)[x] else 0
    ensures forall x :: x in r <==> x in xs && keep(x)
    decreases |xs|
  {
    if xs == [] then []
    else
      var rest := Select(xs[1..], keep);
      assert xs == [xs[0]] + xs[1..];
      if keep(xs[0]) then
        assert ([xs[0]] + rest)[1..] == rest;
        [xs[0]] + rest
      else
        rest
  }

  /** A filter that keeps every element is the identity. */
  lemma {:induction false} SelectKeepsAll<T(!new)>(xs: seq<T>, keep: T -> bool)
    requires forall x :: x in xs ==> keep(x)
    ensures Select(xs, keep) == xs
    decreases |xs|
  {
    if xs != [] {
      SelectKeepsAll(xs[1..], keep);
      assert xs == [xs[0]] + xs[1..];
    }
  }

  /** Filters that agree on the elements present give the same result. */
  lemma {:induction false} SelectAgreeing<T(!new)>(xs: seq<T>, f: T -> bool, g: T -> bool)
    requires forall x :: x in xs ==> f(x) == g(x)
    ensures Select(xs, f) == Select(xs, g)
    decreases |xs|
  {
    if xs != [] {
      SelectAgreeing(xs[1..], f, g);
    }
  }

  /** Two filters in a row are one filter by the conjunction. */
  lemma {:induction false} SelectTwice<T(!new)>(xs: seq<T>, f: T -> bool, g: T -> bool, fg: T -> bool)
    requires forall x :: fg(x) == (f(x) && g(x))
    ensures Select(Select(xs, f), g) == Select(xs, fg)
    decreases |xs|
  {
    if xs != [] {
      SelectTwice(xs[1..], f, g, fg);
      if f(xs[0]) {
        var rest := Select(xs[1..], f);
        assert Select(xs, f) == [xs[0]] + rest;
        assert ([xs[0]] + rest)[1..] == rest;
      }
    }
  }

  /** Filtering again by the same condition changes nothing. */
  lemma SelectIdempotent<T(!new)>(xs: seq<T>, keep: T -> bool)
    ensures Select(Select(xs, keep), keep) == Select(xs, keep)
  {
    SelectKeepsAll(Select(xs, keep), keep);
  }

  /** Filtering three elements, spelled out. */
  lemma SelectThree<T(!new)>(a: T, b: T, c: T, keep: T -> bool)
    ensures Select([a, b, c], keep)
         == (if keep(a) then [a] else []) + ((if keep(b) then [b] else []) + (if keep(c) then [c] else []))
  {
    SelectFirstOfThree(a, b, c, keep);
    SelectTwo(b, c, keep);
  }

  lemma SelectFirstOfThree<T(!new)>(a: T, b: T, c: T, keep: T -> bool)
    ensures Select([a, b, c], keep) == (if keep(a) then [a] else []) + Select([b, c], keep)
  {
    SelectCons(a, [b, c], keep);
    assert [a, b, c] == [a] + [b, c];
  }

  lemma SelectCons<T(!new)>(x: T, xs: seq<T>, keep: T -> bool)
    ensures Select([x] + xs, keep) == (if keep(x) then [x] else []) + Select(xs, keep)
  {
    assert ([x] + xs)[1..] == xs;
  }

  lemma SelectTwo<T(!new)>(b: T, c: T, keep: T -> bool)
    ensures Select([b, c], keep) == (if keep(b) then [b] else []) + (if keep(c) then [c] else [])
  {
    SelectCons(b, [c], keep);
    assert [b, c] == [b] + [c];
    SelectCons(c, [], keep);
    assert [c] == [c] + [];
  }


  ghost predicate NoDuplicates<T>(xs: seq<T>) {
    forall i, j :: 0 <= i < j < |xs| ==> xs[i] != xs[j]
  }

  /** `[...new Set(xs)]`: each value once, in the order a Set receives them. */
  function Distinct<T(==,!new)>(xs: seq<T>): (r: seq<T>)
    ensures NoDuplicates(r)
    ensures forall x :: x in r <==> x in xs
    decreases |xs|
  {
    if xs == [] then []
    else
      var seen := Distinct(xs[..|xs| - 1]);
      var last := xs[|xs| - 1];
      assert xs == xs[..|xs| - 1] + [last];
      if last in seen then seen else seen + [last]
  }

  /** The index of the first occurrence of `x` in `xs`. */
  function FirstIndex<T(==)>(xs: seq<T>, x: T): (k: nat)
    requires x in xs
    ensures k < |xs| && xs[k] == x && x !in xs[..k]
    decreases |xs|
  {
    if xs[0] == x then 0
    else
      var k := 1 + FirstIndex(xs[1..], x);
      assert xs[..k] == [xs[0]] + xs[1..][..k - 1];
      k
  }

  lemma FirstIndexUnique<T>(xs: seq<T>, x: T, k: nat)
    requires k < |xs| && xs[k] == x && x !in xs[..k]
    ensures FirstIndex(xs, x) == k
  {
  }

  lemma FirstIndexInPrefix<T>(xs: seq<T>, n: nat, x: T)
    requires n <= |xs| && x in xs[..n]
    ensures FirstIndex(xs, x) == FirstIndex(xs[..n], x)
  {
    var k := FirstIndex(xs[..n], x);
    assert xs[..n][..k] == xs[..k];
    FirstIndexUnique(xs, x, k);
  }

  /** Distinct keeps first-occurrence order. */
  lemma {:induction false} DistinctFirstOccurrenceOrder<T(!new)>(xs: seq<T>)
    ensures forall i, j :: 0 <= i < j < |Distinct(xs)| ==>
      FirstIndex(xs, Distinct(xs)[i]) < FirstIndex(xs, Distinct(xs)[j])
    decreases |xs|
  {
    if xs != [] {
      var n := |xs| - 1;
      var init := xs[..n];
      var seen := Distinct(init);
      var last := xs[n];
      DistinctFirstOccurrenceOrder(init);
      assert init == xs[..n];
      forall y | y in seen
        ensures FirstIndex(xs, y) == FirstIndex(init, y) < n
      {
        FirstIndexInPrefix(xs, n, y);
      }
      if last !in seen {
        assert last !in xs[..n];
        FirstIndexUnique(xs, last, n);
      }
    }
  }

  /** How many entries are true. */
  function CountTrue(bs: seq<bool>): (n: nat)
    ensures n <= |bs|
    decreases |bs|
  {
    if bs == [] then 0 else (if bs[0] then 1 else 0) + CountTrue(bs[1..])
  }
}
