/**
 * The transaction history is re-sorted by date after rows are appended
 * (`sort_values(by='날짜')`).  The source does not ask pandas for a stable
 * sort; this model fixes the choice: a stable sort by date, rows of the same
 * date keeping their insertion order.  It is written as an insertion sort
 * over any row type, given the row's date.
 */
module History {

  /** The rows are in non-decreasing order of `key`. */
  ghost predicate SortedBy<T>(s: seq<T>, key: T -> int)
  {
    forall i, j :: 0 <= i < j < |s| ==> key(s[i]) <= key(s[j])
  }

  /** Place `x` after every row whose key is not greater than its own. */
  function InsertBy<T>(s: seq<T>, x: T, key: T -> int): (r: seq<T>)
    ensures |r| == |s| + 1
    decreases |s|
  {
    if s == [] || key(s[|s| - 1]) <= key(x) then s + [x]
    else InsertBy(s[..|s| - 1], x, key) + [s[|s| - 1]]
  }

  /** Stable sort by `key`. */
  function SortBy<T>(s: seq<T>, key: T -> int): (r: seq<T>)
    ensures |r| == |s|
    decreases |s|
  {
    if s == [] then [] else InsertBy(SortBy(s[..|s| - 1], key), s[|s| - 1], key)
  }

  /** The rows whose key is `d`, in their order in `s`. */
  function SameKey<T>(s: seq<T>, key: T -> int, d: int): seq<T>
    decreases |s|
  {
    if s == [] then []
    else SameKey(s[..|s| - 1], key, d) + (if key(s[|s| - 1]) == d then [s[|s| - 1]] else [])
  }

  lemma {:induction false} InsertByPermutes<T>(s: seq<T>, x: T, key: T -> int)
    ensures multiset(InsertBy(s, x, key)) == multiset(s) + multiset{x}
    ensures |InsertBy(s, x, key)| == |s| + 1
    decreases |s|
  {
    if s != [] && key(s[|s| - 1]) > key(x) {
      var init, last := s[..|s| - 1], s[|s| - 1];
      assert s == init + [last];
      InsertByPermutes(init, x, key);
    }
  }

  lemma {:induction false} InsertByBounded<T>(s: seq<T>, x: T, key: T -> int, b: int)
    requires forall i :: 0 <= i < |s| ==> key(s[i]) <= b
    requires key(x) <= b
    ensures forall i :: 0 <= i < |InsertBy(s, x, key)| ==> key(InsertBy(s, x, key)[i]) <= b
    decreases |s|
  {
    if s != [] && key(s[|s| - 1]) > key(x) {
      var init := s[..|s| - 1];
      InsertByBounded(init, x, key, b);
    }
  }

  lemma {:induction false} InsertBySorted<T>(s: seq<T>, x: T, key: T -> int)
    requires SortedBy(s, key)
    ensures SortedBy(InsertBy(s, x, key), key)
    decreases |s|
  {
    if s != [] && key(s[|s| - 1]) > key(x) {
      var init, last := s[..|s| - 1], s[|s| - 1];
      assert SortedBy(init, key);
      InsertBySorted(init, x, key);
      InsertByBounded(init, x, key, key(last));
    }
  }

  /** The sort's result is sorted by date. */
  lemma {:induction false} SortBySorted<T>(s: seq<T>, key: T -> int)
    ensures SortedBy(SortBy(s, key), key)
    decreases |s|
  {
    if s != [] {
      SortBySorted(s[..|s| - 1], key);
      InsertBySorted(SortBy(s[..|s| - 1], key), s[|s| - 1], key);
    }
  }

  /** The sort's result is a permutation of its input. */
  lemma {:induction false} SortByPermutes<T>(s: seq<T>, key: T -> int)
    ensures multiset(SortBy(s, key)) == multiset(s)
    ensures |SortBy(s, key)| == |s|
    decreases |s|
  {
    if s != [] {
      SortByPermutes(s[..|s| - 1], key);
      InsertByPermutes(SortBy(s[..|s| - 1], key), s[|s| - 1], key);
      assert s == s[..|s| - 1] + [s[|s| - 1]];
    }
  }

  lemma {:induction false} InsertByStable<T>(s: seq<T>, x: T, key: T -> int, d: int)
    ensures SameKey(InsertBy(s, x, key), key, d) == SameKey(s, key, d) + (if key(x) == d then [x] else [])
    decreases |s|
  {
    if s == [] || key(s[|s| - 1]) <= key(x) {
      assert (s + [x])[..|s + [x]| - 1] == s;
    } else {
      var init, last := s[..|s| - 1], s[|s| - 1];
      InsertByStable(init, x, key, d);
      var r := InsertBy(init, x, key);
      assert (r + [last])[..|r + [last]| - 1] == r;
    }
  }

  /**
   * Stability: for every date, the rows of that date appear in the sorted
   * history in exactly the order they had before sorting.
   */
  lemma {:induction false} SortByStable<T>(s: seq<T>, key: T -> int, d: int)
    ensures SameKey(SortBy(s, key), key, d) == SameKey(s, key, d)
    decreases |s|
  {
    if s != [] {
      SortByStable(s[..|s| - 1], key, d);
      InsertByStable(SortBy(s[..|s| - 1], key), s[|s| - 1], key, d);
    }
  }

  /**
   * A row whose date is not earlier than any row already in a sorted history
   * lands at the end: appending in date order needs no reordering.
   */
  lemma {:induction false} SortByAppendLatest<T>(s: seq<T>, x: T, key: T -> int)
    requires SortedBy(s, key)
    requires forall i :: 0 <= i < |s| ==> key(s[i]) <= key(x)
    ensures SortBy(s + [x], key) == s + [x]
  {
    assert (s + [x])[..|s + [x]| - 1] == s;
    SortedIsFixed(s, key);
  }

  /** Sorting an already sorted history changes nothing. */
  lemma {:induction false} SortedIsFixed<T>(s: seq<T>, key: T -> int)
    requires SortedBy(s, key)
    ensures SortBy(s, key) == s
    decreases |s|
  {
    if s != [] {
      var init := s[..|s| - 1];
      assert SortedBy(init, key);
      SortedIsFixed(init, key);
      assert init + [s[|s| - 1]] == s;
    }
  }

  /** Every row of the sorted history comes from the unsorted one, and back. */
  lemma SortByMembers<T>(s: seq<T>, key: T -> int)
    ensures forall x :: x in SortBy(s, key) <==> x in s
  {
    SortByPermutes(s, key);
    forall x ensures x in SortBy(s, key) <==> x in s {
      assert x in SortBy(s, key) <==> x in multiset(SortBy(s, key));
      assert x in s <==> x in multiset(s);
    }
  }

  /**
   * A row dated no earlier than any row of the history goes last: sorting
   * the longer history is sorting the shorter one and appending the row,
   * whether or not the history was sorted before.
   */
  lemma {:induction false} SortByAppendMax<T>(s: seq<T>, x: T, key: T -> int)
    requires forall i :: 0 <= i < |s| ==> key(s[i]) <= key(x)
    ensures SortBy(s + [x], key) == SortBy(s, key) + [x]
  {
    assert (s + [x])[..|s + [x]| - 1] == s;
    var t := SortBy(s, key);
    if t != [] {
      SortByPermutes(s, key);
      var last := t[|t| - 1];
      assert last in multiset(t);
      assert last in multiset(s);
      assert last in s;
    }
  }
}
