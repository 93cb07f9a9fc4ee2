/**
 * A stable insertion sort on sequences, ordered by an integer key.
 * It stands in for SQL's `ORDER BY <column> ASC` (use the column as key)
 * and `ORDER BY <column> DESC` (use the negated column as key).
 */
module Sorting {

  /** `s` is in nondecreasing order of `key`. */
  predicate SortedBy<T>(s: seq<T>, key: T -> int) {
    forall i, j :: 0 <= i < j < |s| ==> key(s[i]) <= key(s[j])
  }

  /** Inserts `x` in front of the first element whose key is not smaller. */
  function InsertBy<T>(x: T, s: seq<T>, key: T -> int): (r: seq<T>)
    requires SortedBy(s, key)
    ensures SortedBy(r, key)
    ensures multiset(r) == multiset(s) + multiset{x}
  {
    if |s| == 0 then [x]
    else if key(x) <= key(s[0]) then [x] + s
    else
      var rest := InsertBy(x, s[1..], key);
      assert s == [s[0]] + s[1..];
      ConsSorted(s[0], rest, key, multiset(s[1..]) + multiset{x});
      [s[0]] + rest
  }

  /** Putting `a` in front of a sorted `rest` whose elements all have keys at least `a`'s keeps it sorted. */
  lemma ConsSorted<T>(a: T, rest: seq<T>, key: T -> int, bag: multiset<T>)
    requires SortedBy(rest, key)
    requires multiset(rest) == bag
    requires forall y :: y in bag ==> key(a) <= key(y)
    ensures SortedBy([a] + rest, key)
  {
    forall j | 0 <= j < |rest|
      ensures key(a) <= key(rest[j])
    {
      assert rest[j] in multiset(rest);
    }
  }

  /** Sorts `s` by `key`; elements with equal keys keep their relative order. */
  function SortBy<T>(s: seq<T>, key: T -> int): (r: seq<T>)
    ensures SortedBy(r, key)
    ensures multiset(r) == multiset(s)
    ensures |r| == |s|
  {
    if |s| == 0 then []
    else
      assert s == [s[0]] + s[1..];
      InsertBy(s[0], SortBy(s[1..], key), key)
  }

  /** The elements of `s` whose key is `k`, in their order in `s`. */
  function WithKey<T>(s: seq<T>, key: T -> int, k: int): seq<T> {
    if |s| == 0 then []
    else (if key(s[0]) == k then [s[0]] else []) + WithKey(s[1..], key, k)
  }

  /** `WithKey` of a sequence with one element put in front. */
  lemma WithKeyCons<T>(a: T, t: seq<T>, key: T -> int, k: int)
    ensures WithKey([a] + t, key, k) == (if key(a) == k then [a] else []) + WithKey(t, key, k)
  {
    assert ([a] + t)[1..] == t;
  }

  /** Inserting `x` puts it in front of every element with the same key. */
  lemma {:induction false} InsertByWithKey<T>(x: T, s: seq<T>, key: T -> int, k: int)
    requires SortedBy(s, key)
    ensures WithKey(InsertBy(x, s, key), key, k) == (if key(x) == k then [x] else []) + WithKey(s, key, k)
  {
    if |s| > 0 {
      if key(x) <= key(s[0]) {
        assert InsertBy(x, s, key) == [x] + s;
        WithKeyCons(x, s, key, k);
      } else {
        assert SortedBy(s[1..], key);
        var rest := InsertBy(x, s[1..], key);
        assert InsertBy(x, s, key) == [s[0]] + rest;
        InsertByWithKey(x, s[1..], key, k);
        WithKeyCons(s[0], rest, key, k);
        WithKeyCons(s[0], s[1..], key, k);
        assert s == [s[0]] + s[1..];
      }
    }
  }

  /** Stability: sorting keeps the relative order of the elements that share a key. */
  lemma {:induction false} SortByStable<T>(s: seq<T>, key: T -> int, k: int)
    ensures WithKey(SortBy(s, key), key, k) == WithKey(s, key, k)
  {
    if |s| > 0 {
      SortByStable(s[1..], key, k);
      InsertByWithKey(s[0], SortBy(s[1..], key), key, k);
    }
  }

  /** Sorting keeps exactly the elements it was given. */
  lemma SortByKeepsMembers<T>(s: seq<T>, key: T -> int)
    ensures forall x :: x in SortBy(s, key) <==> x in s
  {
    var r := SortBy(s, key);
    forall x ensures x in r <==> x in s {
      assert x in r <==> x in multiset(r);
      assert x in s <==> x in multiset(s);
    }
  }

  /** Sorting a sequence that is already in order returns it unchanged. */
  lemma {:induction false} SortBySorted<T>(s: seq<T>, key: T -> int)
    requires SortedBy(s, key)
    ensures SortBy(s, key) == s
  {
    if |s| > 0 {
      assert SortedBy(s[1..], key);
      SortBySorted(s[1..], key);
      assert s == [s[0]] + s[1..];
    }
  }
}
