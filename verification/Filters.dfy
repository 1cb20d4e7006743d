/** Keeping the elements of a sequence that pass a test, in order. */
module Filters {

  ghost function Filter<T>(xs: seq<T>, keep: T -> bool): seq<T> {
    if xs == [] then []
    else
      var rest := Filter(xs[..|xs| - 1], keep);
      if keep(xs[|xs| - 1]) then rest + [xs[|xs| - 1]] else rest
  }

  lemma {:induction false} FilterContents<T(!new)>(xs: seq<T>, keep: T -> bool)
    ensures forall e :: e in Filter(xs, keep) <==> e in xs && keep(e)
    ensures |Filter(xs, keep)| <= |xs|
  {
    if xs != [] {
      FilterContents(xs[..|xs| - 1], keep);
      assert forall e :: e in xs <==> e in xs[..|xs| - 1] || e == xs[|xs| - 1];
    }
  }

  lemma {:induction false} FilterAll<T>(xs: seq<T>, keep: T -> bool)
    requires forall e :: e in xs ==> keep(e)
    ensures Filter(xs, keep) == xs
  {
    if xs != [] {
      FilterAll(xs[..|xs| - 1], keep);
      assert xs == xs[..|xs| - 1] + [xs[|xs| - 1]];
    }
  }

  lemma {:induction false} FilterNone<T>(xs: seq<T>, keep: T -> bool)
    requires forall e :: e in xs ==> !keep(e)
    ensures Filter(xs, keep) == []
  {
    if xs != [] {
      FilterNone(xs[..|xs| - 1], keep);
    }
  }

  lemma FilterAppend<T>(xs: seq<T>, e: T, keep: T -> bool)
    ensures Filter(xs + [e], keep) == if keep(e) then Filter(xs, keep) + [e] else Filter(xs, keep)
  {
    assert (xs + [e])[..|xs|] == xs;
  }

  /** Filtering twice, when the second test is decided by the first on what it keeps. */
  lemma {:induction false} FilterFilter<T>(xs: seq<T>, inner: T -> bool, outer: T -> bool, both: T -> bool)
    requires forall e :: e in xs ==> (both(e) <==> inner(e) && outer(e))
    ensures Filter(Filter(xs, inner), outer) == Filter(xs, both)
  {
    if xs != [] {
      var front := xs[..|xs| - 1];
      FilterFilter(front, inner, outer, both);
      if inner(xs[|xs| - 1]) {
        FilterAppend(Filter(front, inner), xs[|xs| - 1], outer);
      }
    }
  }

  ghost function Mapped<T, U>(xs: seq<T>, f: T -> U): (r: seq<U>)
    ensures |r| == |xs| && forall i :: 0 <= i < |xs| ==> r[i] == f(xs[i])
  {
    seq(|xs|, i requires 0 <= i < |xs| => f(xs[i]))
  }

  lemma {:induction false} FilterMapped<T, U>(xs: seq<T>, f: T -> U, keep: U -> bool, keepFirst: T -> bool)
    requires forall x :: x in xs ==> (keepFirst(x) <==> keep(f(x)))
    ensures Mapped(Filter(xs, keepFirst), f) == Filter(Mapped(xs, f), keep)
  {
    if xs != [] {
      var front := xs[..|xs| - 1];
      FilterMapped(front, f, keep, keepFirst);
      assert Mapped(xs, f)[..|xs| - 1] == Mapped(front, f);
      assert xs[|xs| - 1] in xs;
    }
  }
}
