// Sequence queries the application performs on lists and result sets:
// `filter`, `find`, counting, and the ordering a database `orderBy` imposes.
module Seqs {
  import opened Wrappers

  /** `xs.filter(p)`. */
  function Filter<T(!new)>(xs: seq<T>, p: T -> bool): (r: seq<T>)
    ensures |r| <= |xs|
    ensures forall x :: x in r <==> x in xs && p(x)
    ensures forall i :: 0 <= i < |r| ==> p(r[i])
  {
    if xs == [] then []
    else if p(xs[0]) then [xs[0]] + Filter(xs[1..], p)
    else Filter(xs[1..], p)
  }

  /** `r` is `xs` with some elements left out, the rest in their original order. */
  ghost predicate SubsequenceOf<T>(r: seq<T>, xs: seq<T>)
    decreases |xs|
  {
    if r == [] then true
    else if xs == [] then false
    else (r[0] == xs[0] && SubsequenceOf(r[1..], xs[1..])) || SubsequenceOf(r, xs[1..])
  }

  lemma {:induction false} FilterIsSubsequence<T(!new)>(xs: seq<T>, p: T -> bool)
    ensures SubsequenceOf(Filter(xs, p), xs)
    decreases |xs|
  {
    if xs != [] {
      FilterIsSubsequence(xs[1..], p);
      if p(xs[0]) {
        assert Filter(xs, p)[1..] == Filter(xs[1..], p);
      }
    }
  }

  /** Filtering with a predicate every element meets keeps the whole list. */
  lemma {:induction false} FilterAll<T(!new)>(xs: seq<T>, p: T -> bool)
    requires forall x :: x in xs ==> p(x)
    ensures Filter(xs, p) == xs
    decreases |xs|
  {
    if xs != [] {
      FilterAll(xs[1..], p);
    }
  }

  /** `xs.find(p)`: the first element satisfying `p`. */
  function Find<T(!new,==)>(xs: seq<T>, p: T -> bool): (r: Option<T>)
    ensures r.Some? ==> r.value in xs && p(r.value)
    ensures r.None? <==> forall x :: x in xs ==> !p(x)
    ensures r.Some? ==> exists i :: 0 <= i < |xs| && xs[i] == r.value && forall j :: 0 <= j < i ==> !p(xs[j])
  {
    if xs == [] then None
    else if p(xs[0]) then Some(xs[0])
    else
      var r := Find(xs[1..], p);
      if r.Some? then
        var i :| 0 <= i < |xs[1..]| && xs[1..][i] == r.value && forall j :: 0 <= j < i ==> !p(xs[1..][j]);
        assert xs[i + 1] == r.value;
        r
      else r
  }

  /** Position of the first element satisfying `p` (a lookup on a unique column). */
  function IndexWhere<T>(xs: seq<T>, p: T -> bool): (r: Option<nat>)
    ensures r.Some? ==> r.value < |xs| && p(xs[r.value])
    ensures r.Some? ==> forall j :: 0 <= j < r.value ==> !p(xs[j])
    ensures r.None? <==> forall i :: 0 <= i < |xs| ==> !p(xs[i])
  {
    if xs == [] then None
    else if p(xs[0]) then Some(0)
    else
      var r := IndexWhere(xs[1..], p);
      if r.Some? then Some(r.value + 1) else None
  }

  /** Number of elements satisfying `p` (`count` with a `where`). */
  function Count<T(!new)>(xs: seq<T>, p: T -> bool): (n: nat)
    ensures n == |Filter(xs, p)|
    ensures n <= |xs|
  {
    if xs == [] then 0
    else (if p(xs[0]) then 1 else 0) + Count(xs[1..], p)
  }

  lemma {:induction false} CountAppend<T(!new)>(xs: seq<T>, x: T, p: T -> bool)
    ensures Count(xs + [x], p) == Count(xs, p) + (if p(x) then 1 else 0)
    decreases |xs|
  {
    if xs != [] {
      assert (xs + [x])[1..] == xs[1..] + [x];
      CountAppend(xs[1..], x, p);
    }
  }

  lemma {:induction false} CountConcat<T(!new)>(xs: seq<T>, ys: seq<T>, p: T -> bool)
    ensures Count(xs + ys, p) == Count(xs, p) + Count(ys, p)
    decreases |xs|
  {
    if xs == [] {
      assert xs + ys == ys;
    } else {
      assert (xs + ys)[1..] == xs[1..] + ys;
      CountConcat(xs[1..], ys, p);
    }
  }

  /** Counting by `r`, the union of two predicates no element meets both of. */
  lemma {:induction false} CountDisjointUnion<T(!new)>(xs: seq<T>, p: T -> bool, q: T -> bool, r: T -> bool)
    requires forall x :: r(x) <==> p(x) || q(x)
    requires forall x :: !(p(x) && q(x))
    ensures Count(xs, r) == Count(xs, p) + Count(xs, q)
    decreases |xs|
  {
    if xs != [] {
      CountDisjointUnion(xs[1..], p, q, r);
    }
  }

  /** Every element is counted by exactly one of `p` and its negation `q`. */
  lemma {:induction false} CountComplement<T(!new)>(xs: seq<T>, p: T -> bool, q: T -> bool)
    requires forall x :: q(x) <==> !p(x)
    ensures Count(xs, p) + Count(xs, q) == |xs|
    decreases |xs|
  {
    if xs != [] {
      CountComplement(xs[1..], p, q);
    }
  }

  // ---------------------------------------------------------------------
  // Ordering. `le` is the "may come before" relation of an `orderBy`; it is
  // required to be a total preorder, so that any two rows can be placed.

  ghost predicate Total<T(!new)>(le: (T, T) -> bool) {
    && (forall a, b :: le(a, b) || le(b, a))
    && (forall a, b, c :: le(a, b) && le(b, c) ==> le(a, c))
  }

  ghost predicate SortedBy<T>(xs: seq<T>, le: (T, T) -> bool) {
    forall i, j :: 0 <= i < j < |xs| ==> le(xs[i], xs[j])
  }

  function Insert<T(!new)>(x: T, xs: seq<T>, le: (T, T) -> bool): (r: seq<T>)
    requires Total(le)
    ensures multiset(r) == multiset(xs) + multiset{x}
    ensures |r| == |xs| + 1
    ensures SortedBy(xs, le) ==> SortedBy(r, le)
    decreases |xs|
  {
    if xs == [] || le(x, xs[0]) then
      assert SortedBy(xs, le) ==> forall j :: 0 <= j < |xs| ==> le(x, xs[j]) by {
        if SortedBy(xs, le) && xs != [] {
          forall j | 0 <= j < |xs| ensures le(x, xs[j]) {
            if j > 0 { assert le(xs[0], xs[j]); }
          }
        }
      }
      [x] + xs
    else
      var rest := Insert(x, xs[1..], le);
      assert xs == [xs[0]] + xs[1..];
      assert SortedBy(xs, le) ==> SortedBy(xs[1..], le);
      assert le(xs[0], x);
      forall k | 0 <= k < |rest| ensures SortedBy(xs, le) ==> le(xs[0], rest[k]) {
        assert rest[k] in multiset(rest);
        assert rest[k] == x || rest[k] in multiset(xs[1..]);
        if rest[k] != x && SortedBy(xs, le) {
          var j :| 0 <= j < |xs[1..]| && xs[1..][j] == rest[k];
          assert le(xs[0], xs[j + 1]);
        }
      }
      [xs[0]] + rest
  }

  /** The rows ordered by `le` (insertion sort; rows that tie keep no promised order). */
  function SortBy<T(!new)>(xs: seq<T>, le: (T, T) -> bool): (r: seq<T>)
    requires Total(le)
    ensures SortedBy(r, le)
    ensures multiset(r) == multiset(xs)
    ensures |r| == |xs|
    decreases |xs|
  {
    if xs == [] then []
    else
      assert xs == [xs[0]] + xs[1..];
      Insert(xs[0], SortBy(xs[1..], le), le)
  }

  lemma SortedMembers<T(!new)>(xs: seq<T>, le: (T, T) -> bool)
    requires Total(le)
    ensures forall x :: x in SortBy(xs, le) <==> x in xs
  {
    var r := SortBy(xs, le);
    forall x ensures x in r <==> x in xs {
      assert x in r <==> x in multiset(r);
      assert x in xs <==> x in multiset(xs);
    }
  }
}
