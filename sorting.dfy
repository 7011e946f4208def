/** Sorting under a strict total order, the behaviour `Vec::sort` has for
    a type whose `Ord` is total. The order is a parameter so that the
    facts below depend only on its order properties. */
module Sorting {

  ghost predicate IsStrictTotalOrder<T(!new)>(less: (T, T) -> bool)
  {
    (forall a :: !less(a, a)) &&
    (forall a, b :: a == b || less(a, b) || less(b, a)) &&
    (forall a, b, c :: less(a, b) && less(b, c) ==> less(a, c))
  }

  /** No element is less than an earlier one. */
  predicate SortedBy<T>(less: (T, T) -> bool, s: seq<T>)
  {
    forall i, j :: 0 <= i < j < |s| ==> !less(s[j], s[i])
  }

  /** Sorted with no repetitions. */
  predicate StrictlySortedBy<T>(less: (T, T) -> bool, s: seq<T>)
  {
    forall i, j :: 0 <= i < j < |s| ==> less(s[i], s[j])
  }

  /** Places `x` before the first element not less than it. */
  function Insert<T>(less: (T, T) -> bool, x: T, s: seq<T>): seq<T>
  {
    if |s| == 0 then [x]
    else if !less(s[0], x) then [x] + s
    else [s[0]] + Insert(less, x, s[1..])
  }

  /** Insertion sort. */
  function SortBy<T>(less: (T, T) -> bool, s: seq<T>): seq<T>
  {
    if |s| == 0 then [] else Insert(less, s[0], SortBy(less, s[1..]))
  }

  lemma {:induction false} InsertPermutes<T>(less: (T, T) -> bool, x: T, s: seq<T>)
    ensures multiset(Insert(less, x, s)) == multiset(s) + multiset{x}
  {
    if |s| > 0 && less(s[0], x) {
      InsertPermutes(less, x, s[1..]);
      assert s == [s[0]] + s[1..];
    }
  }

  lemma {:induction false} InsertSorted<T(!new)>(less: (T, T) -> bool, x: T, s: seq<T>)
    requires IsStrictTotalOrder(less)
    requires SortedBy(less, s)
    ensures SortedBy(less, Insert(less, x, s))
  {
    var r := Insert(less, x, s);
    if |s| == 0 {
    } else if !less(s[0], x) {
      assert r == [x] + s;
      forall i, j | 0 <= i < j < |r|
        ensures !less(r[j], r[i])
      {
        if i == 0 {
          assert r[j] == s[j - 1];
          if j > 1 {
            assert !less(s[j - 1], s[0]);
          }
        } else {
          assert r[i] == s[i - 1] && r[j] == s[j - 1];
        }
      }
    } else {
      var t := s[1..];
      InsertSorted(less, x, t);
      InsertPermutes(less, x, t);
      var tail := Insert(less, x, t);
      assert r == [s[0]] + tail;
      forall i, j | 0 <= i < j < |r|
        ensures !less(r[j], r[i])
      {
        if i == 0 {
          var y := r[j];
          assert y == tail[j - 1];
          assert y in multiset(tail);
          if y != x {
            assert y in multiset(t);
            var k :| 0 <= k < |t| && t[k] == y;
            assert s[k + 1] == y;
          }
        } else {
          assert r[i] == tail[i - 1] && r[j] == tail[j - 1];
        }
      }
    }
  }

  /** `SortBy` returns a sorted permutation of its input. */
  lemma {:induction false} SortByCorrect<T(!new)>(less: (T, T) -> bool, s: seq<T>)
    requires IsStrictTotalOrder(less)
    ensures SortedBy(less, SortBy(less, s))
    ensures multiset(SortBy(less, s)) == multiset(s)
  {
    if |s| > 0 {
      SortByCorrect(less, s[1..]);
      InsertSorted(less, s[0], SortBy(less, s[1..]));
      InsertPermutes(less, s[0], SortBy(less, s[1..]));
      assert s == [s[0]] + s[1..];
    }
  }

  /** Two sorted lists with the same elements start with the same element. */
  lemma SortedHeadsEqual<T(!new)>(less: (T, T) -> bool, a: seq<T>, b: seq<T>)
    requires IsStrictTotalOrder(less)
    requires SortedBy(less, a) && SortedBy(less, b) && multiset(a) == multiset(b)
    requires |a| > 0
    ensures |b| > 0 && a[0] == b[0]
  {
    assert a[0] in multiset(b);
    var k :| 0 <= k < |b| && b[k] == a[0];
    assert b[0] in multiset(a);
    var l :| 0 <= l < |a| && a[l] == b[0];
    assert k == 0 || !less(b[k], b[0]);
    assert l == 0 || !less(a[l], a[0]);
  }

  /** A sorted list is determined by its elements: every sort of the same
      elements gives the same list, so the sorting algorithm chosen does not
      matter. */
  lemma {:induction false} SortedUnique<T(!new)>(less: (T, T) -> bool, a: seq<T>, b: seq<T>)
    requires IsStrictTotalOrder(less)
    requires SortedBy(less, a) && SortedBy(less, b) && multiset(a) == multiset(b)
    ensures a == b
  {
    if |a| == 0 {
      assert |b| == |multiset(b)| == 0;
    } else {
      SortedHeadsEqual(less, a, b);
      assert a == [a[0]] + a[1..];
      assert b == [b[0]] + b[1..];
      assert multiset(a[1..]) == multiset(a) - multiset{a[0]};
      assert multiset(b[1..]) == multiset(b) - multiset{b[0]};
      SortedUnique(less, a[1..], b[1..]);
    }
  }

  /** Strictly sorted lists are sorted. */
  lemma StrictlySortedIsSorted<T(!new)>(less: (T, T) -> bool, s: seq<T>)
    requires IsStrictTotalOrder(less)
    requires StrictlySortedBy(less, s)
    ensures SortedBy(less, s)
  {
    forall i, j | 0 <= i < j < |s|
      ensures !less(s[j], s[i])
    {
      assert less(s[i], s[j]);
    }
  }

  /** `[x]` when `present`, otherwise empty. */
  function Maybe<T>(present: bool, x: T): (r: seq<T>)
    ensures x in r <==> present
    ensures |r| <= 1
  {
    if present then [x] else []
  }

  /** Appending an optional element above everything in a strictly sorted
      list keeps it strictly sorted. */
  lemma AppendAbove<T>(less: (T, T) -> bool, s: seq<T>, present: bool, x: T)
    requires StrictlySortedBy(less, s)
    requires forall i :: 0 <= i < |s| ==> less(s[i], x)
    ensures StrictlySortedBy(less, s + Maybe(present, x))
  {
    var t := s + Maybe(present, x);
    forall i, j | 0 <= i < j < |t|
      ensures less(t[i], t[j])
    {
      assert t[i] == s[i];
      if j == |s| {
        assert t[j] == x;
      } else {
        assert t[j] == s[j];
      }
    }
  }

  /** Everything in `s + Maybe(present, x)` is below `y` when everything in
      `s` is and, if it is appended, `x` is. */
  lemma AppendBelow<T>(less: (T, T) -> bool, s: seq<T>, present: bool, x: T, y: T)
    requires forall i :: 0 <= i < |s| ==> less(s[i], y)
    requires present ==> less(x, y)
    ensures forall i :: 0 <= i < |s + Maybe(present, x)| ==> less((s + Maybe(present, x))[i], y)
  {
    var t := s + Maybe(present, x);
    forall i | 0 <= i < |t|
      ensures less(t[i], y)
    {
      if i < |s| {
        assert t[i] == s[i];
      } else {
        assert t[i] == x;
      }
    }
  }

  /** Dropping optional members from a strictly increasing run of four keeps
      it strictly increasing. */
  lemma StrictlySortedRun<T(!new)>(less: (T, T) -> bool, a: T, b: T, c: T, d: T, pa: bool, pb: bool, pd: bool)
    requires IsStrictTotalOrder(less)
    requires less(a, b) && less(b, c) && less(c, d)
    ensures StrictlySortedBy(less, Maybe(pa, a) + Maybe(pb, b) + [c] + Maybe(pd, d))
  {
    assert less(a, c) && less(b, d) && less(a, d);
    var e: seq<T> := [];
    var s0 := e + Maybe(pa, a);
    assert s0 == Maybe(pa, a);
    AppendAbove(less, e, pa, a);
    AppendBelow(less, e, pa, a, b);
    AppendBelow(less, e, pa, a, c);
    AppendBelow(less, e, pa, a, d);
    var s1 := s0 + Maybe(pb, b);
    AppendAbove(less, s0, pb, b);
    AppendBelow(less, s0, pb, b, c);
    AppendBelow(less, s0, pb, b, d);
    var s2 := s1 + Maybe(true, c);
    assert s2 == s1 + [c];
    AppendAbove(less, s1, true, c);
    AppendBelow(less, s1, true, c, d);
    AppendAbove(less, s2, pd, d);
  }
}
