/**
 * Folds and filters over sequences, the Dafny counterparts of the
 * `reduce` and `filter` calls the ledger applies to its line lists.
 */
module Seqs {

  /**
   * `xs.reduce((s, it) => s + f(it), 0)`: a left fold from index 0, so the
   * last element is added last. Over `real` the order does not matter, but
   * the definition keeps the source's.
   */
  function SumBy<T>(xs: seq<T>, f: T -> real): real
  {
    if xs == [] then 0.0 else SumBy(xs[..|xs| - 1], f) + f(xs[|xs| - 1])
  }

  /** The sum over a concatenation is the sum of the sums. */
  lemma {:induction false} SumByConcat<T>(a: seq<T>, b: seq<T>, f: T -> real)
    ensures SumBy(a + b, f) == SumBy(a, f) + SumBy(b, f)
  {
    if b == [] {
      assert a + b == a;
    } else {
      var b' := b[..|b| - 1];
      assert (a + b)[..|a + b| - 1] == a + b';
      SumByConcat(a, b', f);
    }
  }

  /** Appending one element adds exactly its term. */
  lemma SumByAppend<T>(a: seq<T>, x: T, f: T -> real)
    ensures SumBy(a + [x], f) == SumBy(a, f) + f(x)
  {
    assert (a + [x])[..|a + [x]| - 1] == a;
  }

  /** Removing the element at `i` subtracts exactly its term. */
  lemma SumByRemoveAt<T>(a: seq<T>, i: nat, f: T -> real)
    requires i < |a|
    ensures SumBy(a[..i] + a[i + 1..], f) == SumBy(a, f) - f(a[i])
  {
    var before, x, after := a[..i], a[i], a[i + 1..];
    assert a == (before + [x]) + after;
    calc {
      SumBy(a, f);
      == { SumByConcat(before + [x], after, f); }
      SumBy(before + [x], f) + SumBy(after, f);
      == { SumByAppend(before, x, f); }
      SumBy(before, f) + f(x) + SumBy(after, f);
      == { SumByConcat(before, after, f); }
      SumBy(before + after, f) + f(x);
    }
  }

  /** Replacing the element at `i` by `y` changes the sum by `f(y) - f(a[i])`. */
  lemma SumByUpdateAt<T>(a: seq<T>, i: nat, y: T, f: T -> real)
    requires i < |a|
    ensures SumBy(a[i := y], f) == SumBy(a, f) - f(a[i]) + f(y)
  {
    var b := a[i := y];
    assert b == a[..i] + [y] + a[i + 1..];
    assert a == a[..i] + [a[i]] + a[i + 1..];
    SumByConcat(a[..i] + [y], a[i + 1..], f);
    SumByConcat(a[..i] + [a[i]], a[i + 1..], f);
    SumByAppend(a[..i], y, f);
    SumByAppend(a[..i], a[i], f);
  }

  /** The sum does not depend on the order of the elements. */
  lemma {:induction false} SumByPermutation<T>(a: seq<T>, b: seq<T>, f: T -> real)
    requires multiset(a) == multiset(b)
    ensures SumBy(a, f) == SumBy(b, f)
  {
    if a == [] {
      assert |b| == |multiset(b)| == 0;
    } else {
      var x := a[|a| - 1];
      var a' := a[..|a| - 1];
      assert a == a' + [x];
      assert x in multiset(b);
      var i :| 0 <= i < |b| && b[i] == x;
      var b' := b[..i] + b[i + 1..];
      assert b == b[..i] + [x] + b[i + 1..];
      assert multiset(b') == multiset(b) - multiset{x};
      assert multiset(a') == multiset(a) - multiset{x};
      SumByPermutation(a', b', f);
      SumByRemoveAt(b, i, f);
    }
  }

  /** If every term is non-negative, so is the sum. */
  lemma {:induction false} SumByNonNegative<T>(xs: seq<T>, f: T -> real)
    requires forall i :: 0 <= i < |xs| ==> f(xs[i]) >= 0.0
    ensures SumBy(xs, f) >= 0.0
  {
    if xs != [] {
      SumByNonNegative(xs[..|xs| - 1], f);
    }
  }

  /** `xs.filter(keep)`: the elements that pass, in their original order. */
  function Filter<T>(xs: seq<T>, keep: T -> bool): (r: seq<T>)
    ensures |r| <= |xs|
    ensures forall i :: 0 <= i < |r| ==> keep(r[i])
    ensures IsSubsequence(r, xs)
    ensures |r| == |xs| - Count(xs, keep)
  {
    if xs == [] then []
    else if keep(xs[0]) then [xs[0]] + Filter(xs[1..], keep)
    else Filter(xs[1..], keep)
  }

  /** The number of elements that fail `keep` (those a filter drops). */
  function Count<T>(xs: seq<T>, keep: T -> bool): nat
  {
    if xs == [] then 0 else (if keep(xs[0]) then 0 else 1) + Count(xs[1..], keep)
  }

  /** `sub` is `xs` with some elements left out and the rest in the same order. */
  predicate IsSubsequence<T(==)>(sub: seq<T>, xs: seq<T>)
  {
    if sub == [] then true
    else if xs == [] then false
    else if sub[0] == xs[0] then IsSubsequence(sub[1..], xs[1..])
    else IsSubsequence(sub, xs[1..])
  }

  /** Filtering a concatenation filters each part. */
  lemma {:induction false} FilterConcat<T>(a: seq<T>, b: seq<T>, keep: T -> bool)
    ensures Filter(a + b, keep) == Filter(a, keep) + Filter(b, keep)
  {
    if a == [] {
      assert a + b == b;
    } else {
      assert (a + b)[1..] == a[1..] + b;
      FilterConcat(a[1..], b, keep);
    }
  }

  /** A filter that every element passes changes nothing. */
  lemma {:induction false} FilterAllKept<T>(xs: seq<T>, keep: T -> bool)
    requires forall i :: 0 <= i < |xs| ==> keep(xs[i])
    ensures Filter(xs, keep) == xs
  {
    if xs != [] {
      FilterAllKept(xs[1..], keep);
    }
  }

  /** Filtering twice with the same test is filtering once. */
  lemma FilterIdempotent<T>(xs: seq<T>, keep: T -> bool)
    ensures Filter(Filter(xs, keep), keep) == Filter(xs, keep)
  {
    FilterAllKept(Filter(xs, keep), keep);
  }

  /** When exactly the element at `i` fails the test, the filter removes just that element. */
  lemma FilterRemoveAt<T>(xs: seq<T>, i: nat, keep: T -> bool)
    requires i < |xs| && !keep(xs[i])
    requires forall j :: 0 <= j < |xs| && j != i ==> keep(xs[j])
    ensures Filter(xs, keep) == xs[..i] + xs[i + 1..]
  {
    var before, after := xs[..i], xs[i + 1..];
    assert xs == before + ([xs[i]] + after);
    FilterAllKept(before, keep);
    FilterAllKept(after, keep);
    assert Filter([xs[i]] + after, keep) == after;
    FilterConcat(before, [xs[i]] + after, keep);
  }

  /** An element that passes the test survives the filter. */
  lemma {:induction false} FilterKeeps<T>(xs: seq<T>, x: T, keep: T -> bool)
    requires x in xs && keep(x)
    ensures x in Filter(xs, keep)
  {
    if xs[0] != x {
      FilterKeeps(xs[1..], x, keep);
    }
  }
}
