/** Shared vocabulary: optional values and order-preserving filtering. */
module Common {

  /** A value that may be absent, as JavaScript's `null` or `undefined`. */
  datatype Option<+T> = None | Some(value: T) {

    /** The value, or `default` when absent (JavaScript's `??`). */
    function GetOr(default: T): T {
      match this
      case Some(v) => v
      case None => default
    }
  }

  /** No value occurs twice in `xs`. */
  predicate Distinct<T(==)>(xs: seq<T>) {
    forall i, j :: 0 <= i < j < |xs| ==> xs[i] != xs[j]
  }

  /** `xs` is obtained from `ys` by deleting elements and keeping the rest in order. */
  predicate Subsequence<T(==)>(xs: seq<T>, ys: seq<T>)
    decreases |ys|
  {
    if |xs| == 0 then true
    else if |ys| == 0 then false
    else (xs[0] == ys[0] && Subsequence(xs[1..], ys[1..])) || Subsequence(xs, ys[1..])
  }

  /** Every element of a subsequence occurs in the sequence it was taken from. */
  lemma {:induction false} SubsequenceMembers<T>(xs: seq<T>, ys: seq<T>)
    requires Subsequence(xs, ys)
    ensures forall x :: x in xs ==> x in ys
    decreases |ys|
  {
    if |xs| > 0 {
      if xs[0] == ys[0] && Subsequence(xs[1..], ys[1..]) {
        SubsequenceMembers(xs[1..], ys[1..]);
        assert xs == [xs[0]] + xs[1..];
      } else {
        SubsequenceMembers(xs, ys[1..]);
      }
    }
  }

  /**
   * `Array.prototype.filter`: the elements of `xs` that satisfy `keep`, in
   * their original order and with their original multiplicity.
   */
  function Filter<T(==,!new)>(xs: seq<T>, keep: T -> bool): (r: seq<T>)
    ensures Subsequence(r, xs)
    ensures forall i :: 0 <= i < |r| ==> keep(r[i])
    ensures (forall i :: 0 <= i < |xs| ==> keep(xs[i])) ==> r == xs
  {
    if |xs| == 0 then []
    else
      var rest := Filter(xs[1..], keep);
      if keep(xs[0]) then
        var r := [xs[0]] + rest;
        assert r[1..] == rest;
        r
      else rest
  }

  /** Filtering keeps every accepted element as often as it occurs, and drops every other element. */
  lemma {:induction false} FilterCounts<T(!new)>(xs: seq<T>, keep: T -> bool)
    ensures forall x :: keep(x) ==> multiset(Filter(xs, keep))[x] == multiset(xs)[x]
    ensures forall x :: x in Filter(xs, keep) <==> x in xs && keep(x)
    decreases |xs|
  {
    if |xs| > 0 {
      FilterCounts(xs[1..], keep);
      assert xs == [xs[0]] + xs[1..];
      assert multiset(xs) == multiset{xs[0]} + multiset(xs[1..]);
      FilterCons(xs[0], xs[1..], keep);
    }
  }

  /** Filtering a sequence with a known first element. */
  lemma FilterCons<T(!new)>(x: T, xs: seq<T>, keep: T -> bool)
    ensures Filter([x] + xs, keep) == (if keep(x) then [x] else []) + Filter(xs, keep)
  {
    assert ([x] + xs)[0] == x;
    assert ([x] + xs)[1..] == xs;
  }

  /** Filtering depends only on which elements `keep` accepts, not on how it is written. */
  lemma {:induction false} FilterSameKeep<T(!new)>(xs: seq<T>, keep1: T -> bool, keep2: T -> bool)
    requires forall i :: 0 <= i < |xs| ==> keep1(xs[i]) == keep2(xs[i])
    ensures Filter(xs, keep1) == Filter(xs, keep2)
    decreases |xs|
  {
    if |xs| > 0 {
      FilterSameKeep(xs[1..], keep1, keep2);
    }
  }

  /** Filtering a duplicate-free sequence leaves it duplicate-free. */
  lemma {:induction false} FilterKeepsDistinct<T(!new)>(xs: seq<T>, keep: T -> bool)
    requires Distinct(xs)
    ensures Distinct(Filter(xs, keep))
    decreases |xs|
  {
    if |xs| > 0 {
      var tail := xs[1..];
      assert Distinct(tail) by {
        forall i, j | 0 <= i < j < |tail| ensures tail[i] != tail[j] {
          assert tail[i] == xs[i + 1] && tail[j] == xs[j + 1];
        }
      }
      FilterKeepsDistinct(tail, keep);
      var rest := Filter(tail, keep);
      assert xs == [xs[0]] + tail;
      FilterCons(xs[0], tail, keep);
      FilterCounts(tail, keep);
      if keep(xs[0]) {
        assert xs[0] !in tail;
        var r := [xs[0]] + rest;
        forall i, j | 0 <= i < j < |r| ensures r[i] != r[j] {
          assert r[j] == rest[j - 1];
          if i > 0 {
            assert r[i] == rest[i - 1];
          }
        }
      }
    }
  }
}
