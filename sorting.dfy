/**
 * `Array.prototype.sort(compare)` as the ledger uses it. The engine's sort is
 * stable, so for a comparator that is a total preorder its result is the
 * unique stable ordering; insertion sort computes exactly that ordering.
 * `le(a, b)` holds when `compare(a, b) <= 0`, i.e. `a` may stay before `b`.
 */
module Sorting {
  import opened Seqs

  ghost predicate TotalPreorder<T(!new)>(le: (T, T) -> bool)
  {
    && (forall a, b :: le(a, b) || le(b, a))
    && (forall a, b, c :: le(a, b) && le(b, c) ==> le(a, c))
  }

  /** Every earlier element may stay before every later one. */
  ghost predicate SortedBy<T>(xs: seq<T>, le: (T, T) -> bool)
  {
    forall i, j :: 0 <= i < j < |xs| ==> le(xs[i], xs[j])
  }

  /** Places `x`, which came earlier than every element of `s`, before the first element it may precede. */
  function Insert<T>(x: T, s: seq<T>, le: (T, T) -> bool): (r: seq<T>)
    ensures multiset(r) == multiset(s) + multiset{x}
    ensures |r| == |s| + 1
  {
    if s == [] then [x]
    else if le(x, s[0]) then [x] + s
    else assert s == [s[0]] + s[1..]; [s[0]] + Insert(x, s[1..], le)
  }

  /** The stable sort of `xs` under `le`. */
  function SortBy<T>(xs: seq<T>, le: (T, T) -> bool): (r: seq<T>)
    ensures multiset(r) == multiset(xs)
    ensures |r| == |xs|
  {
    if xs == [] then []
    else assert xs == [xs[0]] + xs[1..]; Insert(xs[0], SortBy(xs[1..], le), le)
  }

  lemma {:induction false} InsertSorted<T(!new)>(x: T, s: seq<T>, le: (T, T) -> bool)
    requires TotalPreorder(le)
    requires SortedBy(s, le)
    ensures SortedBy(Insert(x, s, le), le)
  {
    if s != [] && !le(x, s[0]) {
      var t := Insert(x, s[1..], le);
      InsertSorted(x, s[1..], le);
      assert le(s[0], x);
      forall j | 0 <= j < |t| ensures le(s[0], t[j]) {
        assert t[j] in multiset(t);
        assert t[j] == x || t[j] in multiset(s[1..]);
        if t[j] != x {
          var k :| 0 <= k < |s[1..]| && s[1..][k] == t[j];
          assert s[k + 1] == t[j];
        }
      }
    } else if s != [] {
      forall j | 0 <= j < |s| ensures le(x, s[j]) {
        if j > 0 { assert le(s[0], s[j]); }
      }
    }
  }

  /** The result of SortBy is ordered by `le`. */
  lemma {:induction false} SortBySorted<T(!new)>(xs: seq<T>, le: (T, T) -> bool)
    requires TotalPreorder(le)
    ensures SortedBy(SortBy(xs, le), le)
  {
    if xs != [] {
      SortBySorted(xs[1..], le);
      InsertSorted(xs[0], SortBy(xs[1..], le), le);
    }
  }

  /**
   * Stability: for a class of mutually equivalent elements (`same`), the
   * members of the class keep their input order.
   */
  lemma {:induction false} InsertStable<T>(x: T, s: seq<T>, le: (T, T) -> bool, same: T -> bool)
    requires forall a, b :: same(a) && same(b) ==> le(a, b)
    ensures Filter(Insert(x, s, le), same) == (if same(x) then [x] else []) + Filter(s, same)
  {
    if s == [] {
    } else if le(x, s[0]) {
      assert Filter([x] + s, same) == (if same(x) then [x] else []) + Filter(s, same) by {
        assert ([x] + s)[1..] == s;
      }
    } else {
      InsertStable(x, s[1..], le, same);
      assert ([s[0]] + Insert(x, s[1..], le))[1..] == Insert(x, s[1..], le);
      if same(x) { assert !same(s[0]); }
    }
  }

  lemma {:induction false} SortByStable<T>(xs: seq<T>, le: (T, T) -> bool, same: T -> bool)
    requires forall a, b :: same(a) && same(b) ==> le(a, b)
    ensures Filter(SortBy(xs, le), same) == Filter(xs, same)
  {
    if xs != [] {
      SortByStable(xs[1..], le, same);
      InsertStable(xs[0], SortBy(xs[1..], le), le, same);
    }
  }

  /** In a sorted list, an element that may not stay before another comes after it. */
  lemma SortedPrecedes<T>(xs: seq<T>, le: (T, T) -> bool, p: nat, q: nat)
    requires SortedBy(xs, le) && p < |xs| && q < |xs|
    requires !le(xs[q], xs[p]) && le(xs[p], xs[p])
    ensures p < q
  {
  }
}
