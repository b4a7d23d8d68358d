/**
 * The `ordered<T, Compare>` container: a list kept sorted by a comparator
 * `less`, into which every item is inserted at the position `upper_bound`
 * finds, i.e. after every element it is not less than. Among elements the
 * comparator does not distinguish, insertion order is therefore kept
 * (first in, first out), and the front is always a least element.
 */
module Ordered {

  ghost predicate Irreflexive<T(!new)>(less: (T, T) -> bool) {
    forall x :: !less(x, x)
  }

  ghost predicate Transitive<T(!new)>(less: (T, T) -> bool) {
    forall x, y, z :: less(x, y) && less(y, z) ==> less(x, z)
  }

  /** Incomparability (neither is less than the other) is transitive. */
  ghost predicate IncomparabilityTransitive<T(!new)>(less: (T, T) -> bool) {
    forall x, y, z ::
      !less(x, y) && !less(y, x) && !less(y, z) && !less(z, y) ==> !less(x, z) && !less(z, x)
  }

  /** What the standard library demands of a comparator. */
  ghost predicate StrictWeakOrder<T(!new)>(less: (T, T) -> bool) {
    Irreflexive(less) && Transitive(less) && IncomparabilityTransitive(less)
  }

  /** No element is less than one that comes before it. */
  predicate Sorted<T>(s: seq<T>, less: (T, T) -> bool) {
    forall i, j :: 0 <= i < j < |s| ==> !less(s[j], s[i])
  }

  /** The index `std::upper_bound` returns: the first element that `x` is less than. */
  function UpperBound<T>(s: seq<T>, x: T, less: (T, T) -> bool): (k: nat)
    ensures k <= |s|
    ensures forall i :: 0 <= i < k ==> !less(x, s[i])
    ensures k < |s| ==> less(x, s[k])
  {
    if s == [] then 0
    else if less(x, s[0]) then 0
    else 1 + UpperBound(s[1..], x, less)
  }

  /** `ordered::insert`: put `x` at its upper bound. */
  function Insert<T>(s: seq<T>, x: T, less: (T, T) -> bool): (r: seq<T>)
    ensures |r| == |s| + 1
    ensures multiset(r) == multiset(s) + multiset{x}
  {
    var k := UpperBound(s, x, less);
    assert s == s[..k] + s[k..];
    s[..k] + [x] + s[k..]
  }

  /**
   * Where insertion puts `x`: behind every element it is not less than
   * (so equal-ranked elements keep their insertion order) and in front of
   * every element it is less than.
   */
  lemma InsertIsStable<T(!new)>(s: seq<T>, x: T, less: (T, T) -> bool)
    requires StrictWeakOrder(less)
    requires Sorted(s, less)
    ensures exists k :: 0 <= k <= |s| && Insert(s, x, less) == s[..k] + [x] + s[k..] &&
                        (forall i :: 0 <= i < k ==> !less(x, s[i])) &&
                        (forall i :: k <= i < |s| ==> less(x, s[i]))
  {
    var k := UpperBound(s, x, less);
    forall i | k <= i < |s|
      ensures less(x, s[i])
    {
      if i > k {
        // x is less than s[k], and s[i] is not less than s[k]
        assert less(x, s[k]) && !less(s[i], s[k]);
      }
    }
    assert Insert(s, x, less) == s[..k] + [x] + s[k..];
  }

  /** Insertion keeps the list sorted. */
  lemma InsertKeepsSorted<T(!new)>(s: seq<T>, x: T, less: (T, T) -> bool)
    requires Irreflexive(less) && Transitive(less)
    requires Sorted(s, less)
    ensures Sorted(Insert(s, x, less), less)
  {
  }

  /** Insert every element of `xs`, first to last. */
  function InsertAll<T>(s: seq<T>, xs: seq<T>, less: (T, T) -> bool): (r: seq<T>)
    ensures |r| == |s| + |xs|
    ensures multiset(r) == multiset(s) + multiset(xs)
    decreases xs
  {
    if xs == [] then s
    else
      assert xs == [xs[0]] + xs[1..];
      InsertAll(Insert(s, xs[0], less), xs[1..], less)
  }

  lemma {:induction false} InsertAllKeepsSorted<T(!new)>(s: seq<T>, xs: seq<T>, less: (T, T) -> bool)
    requires Irreflexive(less) && Transitive(less)
    requires Sorted(s, less)
    ensures Sorted(InsertAll(s, xs, less), less)
    decreases xs
  {
    if xs != [] {
      InsertKeepsSorted(s, xs[0], less);
      InsertAllKeepsSorted(Insert(s, xs[0], less), xs[1..], less);
    }
  }

  /** The front of a sorted list is a least element: nothing in the list is less than it. */
  lemma FrontIsLeast<T(!new)>(s: seq<T>, less: (T, T) -> bool)
    requires Irreflexive(less)
    requires Sorted(s, less) && |s| > 0
    ensures forall i :: 0 <= i < |s| ==> !less(s[i], s[0])
  {
  }
}
