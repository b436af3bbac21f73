/**
 * `array.sort((a, b) => b.value - a.value)`: JavaScript's sort is stable, so the model is a
 * stable descending insertion sort on sequences, with its three defining properties.
 */
module Ordering {
  import opened Common

  predicate SortedDesc<T>(s: seq<T>, key: T -> real) {
    forall i, j :: 0 <= i < j < |s| ==> key(s[i]) >= key(s[j])
  }

  /** Inserts `x` after every element with a strictly greater key and before the rest. */
  function InsertDesc<T(==)>(x: T, s: seq<T>, key: T -> real): (r: seq<T>)
    ensures multiset(r) == multiset(s) + multiset{x}
    ensures |r| == |s| + 1
  {
    if s == [] || key(x) >= key(s[0]) then [x] + s
    else
      assert s == [s[0]] + s[1..];
      [s[0]] + InsertDesc(x, s[1..], key)
  }

  lemma {:induction false} InsertDescSorted<T(!new)>(x: T, s: seq<T>, key: T -> real)
    requires SortedDesc(s, key)
    ensures SortedDesc(InsertDesc(x, s, key), key)
  {
    if s == [] || key(x) >= key(s[0]) {
      var r := [x] + s;
      forall i, j | 0 <= i < j < |r|
        ensures key(r[i]) >= key(r[j])
      {
        if i > 0 {
          assert r[i] == s[i - 1] && r[j] == s[j - 1];
        } else {
          assert r[j] == s[j - 1];
          assert key(s[0]) >= key(s[j - 1]);
        }
      }
    } else {
      var rest := InsertDesc(x, s[1..], key);
      assert SortedDesc(s[1..], key) by {
        forall i, j | 0 <= i < j < |s[1..]|
          ensures key(s[1..][i]) >= key(s[1..][j])
        {
          assert s[1..][i] == s[i + 1] && s[1..][j] == s[j + 1];
        }
      }
      InsertDescSorted(x, s[1..], key);
      var r := [s[0]] + rest;
      forall i, j | 0 <= i < j < |r|
        ensures key(r[i]) >= key(r[j])
      {
        if i > 0 {
          assert r[i] == rest[i - 1] && r[j] == rest[j - 1];
        } else {
          assert r[j] == rest[j - 1];
          assert rest[j - 1] in multiset(s[1..]) + multiset{x};
          if rest[j - 1] != x {
            assert rest[j - 1] in s[1..];
            var k :| 0 <= k < |s[1..]| && s[1..][k] == rest[j - 1];
            assert s[1..][k] == s[k + 1];
          }
        }
      }
    }
  }

  /** The stable descending sort by `key`. */
  function SortDesc<T(==)>(s: seq<T>, key: T -> real): (r: seq<T>)
    ensures multiset(r) == multiset(s)
    ensures |r| == |s|
  {
    if s == [] then []
    else
      assert s == [s[0]] + s[1..];
      InsertDesc(s[0], SortDesc(s[1..], key), key)
  }

  /** The result is in descending key order. */
  lemma {:induction false} SortDescSorted<T(!new)>(s: seq<T>, key: T -> real)
    ensures SortedDesc(SortDesc(s, key), key)
  {
    if s != [] {
      SortDescSorted(s[1..], key);
      InsertDescSorted(s[0], SortDesc(s[1..], key), key);
    }
  }

  /** Sorting keeps exactly the elements it was given. */
  lemma SortDescMembers<T(!new)>(s: seq<T>, key: T -> real)
    ensures forall x :: x in SortDesc(s, key) <==> x in s
  {
    var r := SortDesc(s, key);
    forall x ensures x in r <==> x in s {
      assert x in r <==> x in multiset(r);
      assert x in s <==> x in multiset(s);
    }
  }

  /** The elements whose key equals `v`, in order. */
  function Keep<T>(s: seq<T>, key: T -> real, v: real): seq<T> {
    if s == [] then [] else (if key(s[0]) == v then [s[0]] else []) + Keep(s[1..], key, v)
  }

  /** `x` goes in front of every element with its own key, so the elements with key `v` keep their order. */
  lemma {:induction false} InsertKeep<T>(x: T, s: seq<T>, key: T -> real, v: real)
    ensures Keep(InsertDesc(x, s, key), key, v) == (if key(x) == v then [x] else []) + Keep(s, key, v)
  {
    if s == [] || key(x) >= key(s[0]) {
      assert ([x] + s)[1..] == s;
    } else {
      var rest := InsertDesc(x, s[1..], key);
      assert InsertDesc(x, s, key) == [s[0]] + rest;
      assert ([s[0]] + rest)[1..] == rest;
      InsertKeep(x, s[1..], key, v);
      assert Keep(s, key, v) == (if key(s[0]) == v then [s[0]] else []) + Keep(s[1..], key, v);
      if key(x) == v {
        assert key(s[0]) != v;
      }
    }
  }

  /**
   * Stability: among elements with equal keys the sort keeps the input order.
   */
  lemma {:induction false} SortDescStable<T(!new)>(s: seq<T>, key: T -> real, v: real)
    ensures Keep(SortDesc(s, key), key, v) == Keep(s, key, v)
  {
    if s != [] {
      SortDescStable(s[1..], key, v);
      InsertKeep(s[0], SortDesc(s[1..], key), key, v);
    }
  }

  /** A sorted sequence is left as it is: sorting already-sorted nodes changes nothing. */
  lemma {:induction false} SortDescOfSorted<T(!new)>(s: seq<T>, key: T -> real)
    requires SortedDesc(s, key)
    ensures SortDesc(s, key) == s
  {
    if s != [] {
      assert SortedDesc(s[1..], key);
      SortDescOfSorted(s[1..], key);
    }
  }

  /** Dropping elements whose key is not `v` leaves the elements with key `v`, in order. */
  lemma {:induction false} KeepFilter<T(!new)>(s: seq<T>, p: T -> bool, key: T -> real, v: real)
    requires forall x :: key(x) == v ==> p(x)
    ensures Keep(Filter(s, p), key, v) == Keep(s, key, v)
  {
    if s != [] {
      var rest := Filter(s[1..], p);
      KeepFilter(s[1..], p, key, v);
      assert Keep(s, key, v) == (if key(s[0]) == v then [s[0]] else []) + Keep(s[1..], key, v);
      if p(s[0]) {
        var f := [s[0]] + rest;
        assert Filter(s, p) == f;
        assert f[0] == s[0] && f[1..] == rest;
        assert Keep(f, key, v) == (if key(s[0]) == v then [s[0]] else []) + Keep(rest, key, v);
      } else {
        assert Filter(s, p) == rest;
        assert key(s[0]) != v;
      }
    }
  }

  /**
   * Sorting the elements a filter keeps: the result is descending, and it holds each element that
   * satisfies `p` as often as the input does and no other element.
   */
  lemma FilterSort<T(!new)>(s: seq<T>, p: T -> bool, key: T -> real)
    ensures SortedDesc(SortDesc(Filter(s, p), key), key)
    ensures forall x :: multiset(SortDesc(Filter(s, p), key))[x] == if p(x) then multiset(s)[x] else 0
    ensures forall x :: x in SortDesc(Filter(s, p), key) <==> x in s && p(x)
  {
    FilterCount(s, p);
    SortDescSorted(Filter(s, p), key);
    SortDescMembers(Filter(s, p), key);
  }

  /**
   * Filtering and then sorting keeps the input order among the kept elements of each key the
   * filter cannot drop.
   */
  lemma FilterSortStable<T(!new)>(s: seq<T>, p: T -> bool, key: T -> real, v: real)
    requires forall x :: key(x) == v ==> p(x)
    ensures Keep(SortDesc(Filter(s, p), key), key, v) == Keep(s, key, v)
  {
    SortDescStable(Filter(s, p), key, v);
    KeepFilter(s, p, key, v);
  }
}
