/**
 * Sequence helpers shared by the batch model: keeping and transforming the
 * elements a partial function accepts (a list comprehension with a filter),
 * and sortedness of a sequence of integers.
 */
module Seqs {
  import opened Options

  /** `[g(x) for x in s if f(x) is not None]`, with `f` returning `g(x)` or `None`. */
  function FilterMap<T, U>(f: T -> Option<U>, s: seq<T>): (r: seq<U>)
    ensures |r| <= |s|
  {
    if s == [] then []
    else
      var last := s[|s| - 1];
      FilterMap(f, s[..|s| - 1]) + Image(f, last)
  }

  /** What filtering makes of one element: its image, or nothing. */
  function Image<T, U>(f: T -> Option<U>, x: T): seq<U> {
    if f(x).Some? then [f(x).value] else []
  }

  /** Filtering distributes over concatenation. */
  lemma {:induction false} FilterMapAppend<T, U>(f: T -> Option<U>, a: seq<T>, b: seq<T>)
    ensures FilterMap(f, a + b) == FilterMap(f, a) + FilterMap(f, b)
    decreases |b|
  {
    if b != [] {
      var init := b[..|b| - 1];
      assert (a + b)[..|a + b| - 1] == a + init;
      FilterMapAppend(f, a, init);
    } else {
      assert a + b == a;
    }
  }

  /** Filtering keeps every accepted element, in order: an element of the result comes from one of the input. */
  lemma {:induction false} FilterMapMembers<T, U>(f: T -> Option<U>, s: seq<T>, y: U)
    ensures y in FilterMap(f, s) <==> exists x :: x in s && f(x) == Some(y)
    decreases |s|
  {
    if s != [] {
      var init := s[..|s| - 1];
      FilterMapMembers(f, init, y);
      assert s == init + [s[|s| - 1]];
      if exists x :: x in s && f(x) == Some(y) {
        var x :| x in s && f(x) == Some(y);
        if x != s[|s| - 1] {
          assert x in init;
        }
      }
    }
  }

  /** Filtering two arrangements of the same elements gives two arrangements of the same results. */
  lemma {:induction false} FilterMapPermutation<T, U>(f: T -> Option<U>, a: seq<T>, b: seq<T>)
    requires multiset(a) == multiset(b)
    ensures multiset(FilterMap(f, a)) == multiset(FilterMap(f, b))
    decreases |a|
  {
    if a == [] {
      assert |b| == |multiset(b)| == 0;
    } else {
      var init, x := SplitLast(a);
      assert x in multiset(b);
      var before, after := SplitAt(b, x);
      calc {
        multiset(init);
        multiset(a) - multiset{x};
        multiset(b) - multiset{x};
        multiset(before + after);
      }
      calc {
        multiset(FilterMap(f, a));
        { assert a == init + [x]; FilterMapSnoc(f, init, x); }
        multiset(FilterMap(f, init) + Image(f, x));
        multiset(FilterMap(f, init)) + multiset(Image(f, x));
        { FilterMapPermutation(f, init, before + after); }
        multiset(FilterMap(f, before + after)) + multiset(Image(f, x));
        { FilterMapDrop(f, before, x, after); }
        multiset(FilterMap(f, before + [x] + after));
        { assert b == before + [x] + after; }
        multiset(FilterMap(f, b));
      }
    }
  }

  /** A non-empty sequence is its initial part followed by its last element. */
  lemma SplitLast<T>(a: seq<T>) returns (init: seq<T>, x: T)
    requires a != []
    ensures a == init + [x] && |init| < |a|
  {
    init, x := a[..|a| - 1], a[|a| - 1];
  }

  /** A sequence containing `x` is a prefix, `x`, and a suffix. */
  lemma SplitAt<T>(b: seq<T>, x: T) returns (before: seq<T>, after: seq<T>)
    requires x in multiset(b)
    ensures b == before + [x] + after
  {
    var j :| 0 <= j < |b| && b[j] == x;
    before, after := b[..j], b[j + 1..];
  }

  /** Dropping one element from between two runs drops its image from the result. */
  lemma FilterMapDrop<T, U>(f: T -> Option<U>, a: seq<T>, x: T, c: seq<T>)
    ensures multiset(FilterMap(f, a + [x] + c)) == multiset(FilterMap(f, a + c)) + multiset(Image(f, x))
  {
    var fa, fx, fc := FilterMap(f, a), Image(f, x), FilterMap(f, c);
    FilterMapSplit(f, a, x, c);
    FilterMapAppend(f, a, c);
    calc {
      multiset(FilterMap(f, a + [x] + c));
      multiset(fa + fx + fc);
      multiset(fa) + multiset(fx) + multiset(fc);
      multiset(fa + fc) + multiset(fx);
      multiset(FilterMap(f, a + c)) + multiset(fx);
    }
  }

  /** Filtering one more element appends its image, if it has one. */
  lemma FilterMapSnoc<T, U>(f: T -> Option<U>, s: seq<T>, x: T)
    ensures FilterMap(f, s + [x]) == FilterMap(f, s) + Image(f, x)
  {
    assert (s + [x])[..|s|] == s;
  }

  /** Filtering one element gives its image. */
  lemma FilterMapSingle<T, U>(f: T -> Option<U>, x: T)
    ensures FilterMap(f, [x]) == Image(f, x)
  {
    assert [x] == [] + [x];
    FilterMapSnoc(f, [], x);
  }

  /** Filtering three elements keeps the images of each, in order. */
  lemma FilterMapThree<T, U>(f: T -> Option<U>, x: T, y: T, z: T)
    ensures FilterMap(f, [x, y, z]) == Image(f, x) + Image(f, y) + Image(f, z)
  {
    assert [x, y, z] == [x, y] + [z] && [x, y] == [x] + [y] && [x] == [] + [x];
    FilterMapSnoc(f, [], x);
    FilterMapSnoc(f, [x], y);
    FilterMapSnoc(f, [x, y], z);
  }

  /** Filtering around one element: what comes before it, its image if it has one, and what comes after. */
  lemma FilterMapSplit<T, U>(f: T -> Option<U>, a: seq<T>, x: T, c: seq<T>)
    ensures FilterMap(f, a + [x] + c)
            == FilterMap(f, a) + Image(f, x) + FilterMap(f, c)
  {
    FilterMapAppend(f, a + [x], c);
    FilterMapSnoc(f, a, x);
  }

  predicate NonDecreasing(s: seq<int>) {
    forall i, j :: 0 <= i < j < |s| ==> s[i] <= s[j]
  }

  /** Two non-decreasing runs, the first nowhere above the second, join into one. */
  lemma JoinNonDecreasing(a: seq<int>, b: seq<int>)
    requires NonDecreasing(a) && NonDecreasing(b)
    requires forall i, j :: 0 <= i < |a| && 0 <= j < |b| ==> a[i] <= b[j]
    ensures NonDecreasing(a + b)
  {
    forall i, j | 0 <= i < j < |a + b|
      ensures (a + b)[i] <= (a + b)[j]
    {
      if j < |a| {
        assert (a + b)[i] == a[i] && (a + b)[j] == a[j];
      } else if i >= |a| {
        assert (a + b)[i] == b[i - |a|] && (a + b)[j] == b[j - |a|];
      } else {
        assert (a + b)[i] == a[i] && (a + b)[j] == b[j - |a|];
      }
    }
  }

  /** `s` never goes down and stays within `lo..hi`. */
  predicate ClimbsWithin(s: seq<int>, lo: int, hi: int) {
    NonDecreasing(s) && forall i :: 0 <= i < |s| ==> lo <= s[i] <= hi
  }

  /** A run within `lo..m1` followed by a run within `m2..hi`, with `m1 <= m2`, climbs within `lo..hi`. */
  lemma JoinClimbs(a: seq<int>, b: seq<int>, lo: int, m1: int, m2: int, hi: int)
    requires ClimbsWithin(a, lo, m1) && ClimbsWithin(b, m2, hi)
    requires m1 <= m2 && lo <= m2 && m1 <= hi
    ensures ClimbsWithin(a + b, lo, hi)
  {
    JoinNonDecreasing(a, b);
    forall i | 0 <= i < |a + b|
      ensures lo <= (a + b)[i] <= hi
    {
      if i < |a| {
        assert (a + b)[i] == a[i];
      } else {
        assert (a + b)[i] == b[i - |a|];
      }
    }
  }
}
