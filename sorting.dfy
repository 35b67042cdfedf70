/**
 * Python's `sorted(xs, key=...)`: a stable sort. Modelled as insertion
 * sort, which places each element before the first later element it does
 * not exceed, so elements that compare equal keep their input order.
 */
module Sorting {
  /** `le` is a total preorder: any two elements compare, and comparison chains. */
  ghost predicate TotalPreorder<T(!new)>(le: (T, T) -> bool)
  {
    (forall a, b :: le(a, b) || le(b, a))
    && (forall a, b, c :: le(a, b) && le(b, c) ==> le(a, c))
  }

  predicate SortedBy<T>(s: seq<T>, le: (T, T) -> bool)
  {
    forall i, j :: 0 <= i < j < |s| ==> le(s[i], s[j])
  }

  /**
   * Sorted by `major`, and where two elements tie on `major`, sorted by
   * `minor`: what a stable sort by `major` leaves of an input sorted by
   * `minor`.
   */
  predicate SortedThenBy<T>(s: seq<T>, major: (T, T) -> bool, minor: (T, T) -> bool)
  {
    forall i, j :: 0 <= i < j < |s| ==> major(s[i], s[j]) && (major(s[j], s[i]) ==> minor(s[i], s[j]))
  }

  function Insert<T>(x: T, s: seq<T>, le: (T, T) -> bool): (r: seq<T>)
    ensures multiset(r) == multiset(s) + multiset{x}
    ensures |r| == |s| + 1
    ensures forall k :: 0 <= k < |r| ==> r[k] == x || r[k] in s
  {
    if s == [] then [x]
    else if le(x, s[0]) then [x] + s
    else
      assert s == [s[0]] + s[1..];
      [s[0]] + Insert(x, s[1..], le)
  }

  /** The stably sorted permutation of `s`. */
  function SortBy<T>(s: seq<T>, le: (T, T) -> bool): (r: seq<T>)
    ensures multiset(r) == multiset(s)
    ensures |r| == |s|
  {
    if s == [] then []
    else
      assert s == [s[0]] + s[1..];
      Insert(s[0], SortBy(s[1..], le), le)
  }

  lemma {:induction false} InsertSorted<T(!new)>(x: T, s: seq<T>, le: (T, T) -> bool)
    requires TotalPreorder(le) && SortedBy(s, le)
    ensures SortedBy(Insert(x, s, le), le)
    decreases |s|
  {
    if s != [] && !le(x, s[0]) {
      InsertSorted(x, s[1..], le);
      var r := Insert(x, s, le);
      var t := Insert(x, s[1..], le);
      assert r == [s[0]] + t;
      forall j | 0 < j < |r| ensures le(r[0], r[j]) {
        assert r[j] in multiset(t);
        assert r[j] in multiset(s[1..]) + multiset{x};
        if r[j] == x {
        } else {
          assert r[j] in s[1..];
        }
      }
    }
  }

  /** The result of SortBy is sorted. */
  lemma {:induction false} SortBySorted<T(!new)>(s: seq<T>, le: (T, T) -> bool)
    requires TotalPreorder(le)
    ensures SortedBy(SortBy(s, le), le)
    decreases |s|
  {
    if s != [] {
      SortBySorted(s[1..], le);
      InsertSorted(s[0], SortBy(s[1..], le), le);
    }
  }

  lemma InsertFirstSortedThenBy<T(!new)>(x: T, s: seq<T>, major: (T, T) -> bool, minor: (T, T) -> bool)
    requires TotalPreorder(major)
    requires SortedThenBy(s, major, minor)
    requires forall k :: 0 <= k < |s| ==> minor(x, s[k])
    requires s == [] || major(x, s[0])
    ensures SortedThenBy([x] + s, major, minor)
  {
    var r := [x] + s;
    forall i, j | 0 <= i < j < |r| ensures major(r[i], r[j]) && (major(r[j], r[i]) ==> minor(r[i], r[j])) {
      if i == 0 {
        assert r[j] == s[j - 1];
        if j > 1 {
          assert major(s[0], s[j - 1]);
        }
      } else {
        assert r[i] == s[i - 1] && r[j] == s[j - 1];
      }
    }
  }

  lemma ConsSortedThenBy<T>(y: T, t: seq<T>, major: (T, T) -> bool, minor: (T, T) -> bool)
    requires SortedThenBy(t, major, minor)
    requires forall k :: 0 <= k < |t| ==> major(y, t[k]) && (major(t[k], y) ==> minor(y, t[k]))
    ensures SortedThenBy([y] + t, major, minor)
  {
    var r := [y] + t;
    forall i, j | 0 <= i < j < |r| ensures major(r[i], r[j]) && (major(r[j], r[i]) ==> minor(r[i], r[j])) {
      if i == 0 {
        assert r[j] == t[j - 1];
      } else {
        assert r[i] == t[i - 1] && r[j] == t[j - 1];
      }
    }
  }

  lemma {:induction false} InsertSortedThenBy<T(!new)>(x: T, s: seq<T>, major: (T, T) -> bool, minor: (T, T) -> bool)
    requires TotalPreorder(major) && TotalPreorder(minor)
    requires SortedThenBy(s, major, minor)
    requires forall k :: 0 <= k < |s| ==> minor(x, s[k])
    ensures SortedThenBy(Insert(x, s, major), major, minor)
    decreases |s|
  {
    if s == [] || major(x, s[0]) {
      InsertFirstSortedThenBy(x, s, major, minor);
    } else {
      var y := s[0];
      assert major(y, x);
      InsertSortedThenBy(x, s[1..], major, minor);
      var t := Insert(x, s[1..], major);
      forall k | 0 <= k < |t| ensures major(y, t[k]) && (major(t[k], y) ==> minor(y, t[k])) {
        assert t[k] in t;
        if t[k] != x {
          var m :| 0 <= m < |s[1..]| && s[1..][m] == t[k];
          assert s[m + 1] == t[k];
        }
      }
      ConsSortedThenBy(y, t, major, minor);
    }
  }

  /**
   * Stability: stably sorting by `major` an input already sorted by
   * `minor` leaves ties on `major` in `minor` order.
   */
  lemma {:induction false} SortByStable<T(!new)>(s: seq<T>, major: (T, T) -> bool, minor: (T, T) -> bool)
    requires TotalPreorder(major) && TotalPreorder(minor)
    requires SortedBy(s, minor)
    ensures SortedThenBy(SortBy(s, major), major, minor)
    decreases |s|
  {
    if s != [] {
      var rest := SortBy(s[1..], major);
      SortByStable(s[1..], major, minor);
      forall k | 0 <= k < |rest| ensures minor(s[0], rest[k]) {
        assert rest[k] in multiset(s[1..]);
        var m :| 0 <= m < |s[1..]| && s[1..][m] == rest[k];
        assert s[m + 1] == rest[k];
      }
      InsertSortedThenBy(s[0], rest, major, minor);
    }
  }
}
