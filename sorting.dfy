/**
 * Stable ordering by an integer key, the behaviour of LINQ's OrderBy and
 * OrderByDescending (a descending order is an ascending order on the negated key).
 */
module Sorting {

  predicate SortedByKey<T>(s: seq<T>, key: T -> int) {
    forall i, j :: 0 <= i < j < |s| ==> key(s[i]) <= key(s[j])
  }

  /** The elements of s whose key is k, in their order in s. */
  function WithKey<T>(s: seq<T>, key: T -> int, k: int): seq<T> {
    if s == [] then [] else (if key(s[0]) == k then [s[0]] else []) + WithKey(s[1..], key, k)
  }

  /** Inserts x after every leading element whose key is at most key(x). */
  function InsertByKey<T>(x: T, s: seq<T>, key: T -> int): seq<T> {
    if s == [] then [x]
    else if key(s[0]) <= key(x) then [s[0]] + InsertByKey(x, s[1..], key)
    else [x] + s
  }

  /** Inserting adds exactly the one element. */
  lemma {:induction false} InsertByKeyPermutes<T>(x: T, s: seq<T>, key: T -> int)
    ensures multiset(InsertByKey(x, s, key)) == multiset(s) + multiset{x}
  {
    if s != [] && key(s[0]) <= key(x) {
      assert s == [s[0]] + s[1..];
      InsertByKeyPermutes(x, s[1..], key);
    }
  }

  /** Stable insertion sort by key. */
  function SortByKey<T>(s: seq<T>, key: T -> int): seq<T> {
    if s == [] then []
    else InsertByKey(s[|s| - 1], SortByKey(s[..|s| - 1], key), key)
  }

  /** Sorting is a permutation. */
  lemma {:induction false} SortByKeyPermutes<T>(s: seq<T>, key: T -> int)
    ensures multiset(SortByKey(s, key)) == multiset(s)
  {
    if s != [] {
      assert s == s[..|s| - 1] + [s[|s| - 1]];
      SortByKeyPermutes(s[..|s| - 1], key);
      InsertByKeyPermutes(s[|s| - 1], SortByKey(s[..|s| - 1], key), key);
    }
  }

  /** Sorting keeps the elements and the length. */
  lemma SortByKeyMembers<T>(s: seq<T>, key: T -> int)
    ensures |SortByKey(s, key)| == |s|
    ensures forall x :: x in SortByKey(s, key) <==> x in s
  {
    var r := SortByKey(s, key);
    SortByKeyPermutes(s, key);
    assert |multiset(r)| == |multiset(s)|;
    forall x
      ensures x in r <==> x in s
    {
      assert x in r <==> x in multiset(r);
      assert x in s <==> x in multiset(s);
    }
  }

  lemma {:induction false} InsertByKeySorted<T>(x: T, s: seq<T>, key: T -> int)
    requires SortedByKey(s, key)
    ensures SortedByKey(InsertByKey(x, s, key), key)
  {
    if s != [] && key(s[0]) <= key(x) {
      SortedSlice(s, key, 1, |s|);
      InsertByKeySorted(x, s[1..], key);
      var tail := InsertByKey(x, s[1..], key);
      assert tail[0] == x || tail[0] == s[1] by {
        if s[1..] != [] && key(s[1]) <= key(x) {
          assert tail[0] == s[1..][0];
        }
      }
    }
  }

  /** The sorted result is ordered by key. */
  lemma {:induction false} SortByKeySorted<T>(s: seq<T>, key: T -> int)
    ensures SortedByKey(SortByKey(s, key), key)
  {
    if s != [] {
      SortByKeySorted(s[..|s| - 1], key);
      InsertByKeySorted(s[|s| - 1], SortByKey(s[..|s| - 1], key), key);
    }
  }

  lemma {:induction false} WithKeyAppend<T>(a: seq<T>, b: seq<T>, key: T -> int, k: int)
    ensures WithKey(a + b, key, k) == WithKey(a, key, k) + WithKey(b, key, k)
  {
    if a != [] {
      assert (a + b)[1..] == a[1..] + b;
      WithKeyAppend(a[1..], b, key, k);
    } else {
      assert a + b == b;
    }
  }

  lemma WithKeySingle<T>(x: T, key: T -> int, k: int)
    ensures WithKey([x], key, k) == if key(x) == k then [x] else []
  {
    assert [x][1..] == [];
  }

  lemma {:induction false} WithKeyAbsent<T>(s: seq<T>, key: T -> int, k: int)
    requires forall i :: 0 <= i < |s| ==> key(s[i]) != k
    ensures WithKey(s, key, k) == []
  {
    if s != [] {
      WithKeyAbsent(s[1..], key, k);
    }
  }

  lemma {:induction false} InsertByKeyStable<T>(x: T, s: seq<T>, key: T -> int, k: int)
    requires SortedByKey(s, key)
    ensures WithKey(InsertByKey(x, s, key), key, k) == WithKey(s, key, k) + (if key(x) == k then [x] else [])
  {
    if s == [] {
    } else if key(s[0]) <= key(x) {
      assert s == [s[0]] + s[1..];
      SortedSlice(s, key, 1, |s|);
      InsertByKeyStable(x, s[1..], key, k);
      assert InsertByKey(x, s, key) == [s[0]] + InsertByKey(x, s[1..], key);
      WithKeyAppend([s[0]], InsertByKey(x, s[1..], key), key, k);
      WithKeyAppend([s[0]], s[1..], key, k);
      WithKeySingle(s[0], key, k);
    } else {
      assert InsertByKey(x, s, key) == [x] + s;
      WithKeyAppend([x], s, key, k);
      WithKeySingle(x, key, k);
      if key(x) == k {
        forall i | 0 <= i < |s|
          ensures key(s[i]) != k
        {
          if i > 0 {
            assert key(s[0]) <= key(s[i]);
          }
        }
        WithKeyAbsent(s, key, k);
      }
    }
  }

  /** Stability: among elements with equal keys, the sorted result keeps the input order. */
  lemma {:induction false} SortByKeyStable<T>(s: seq<T>, key: T -> int, k: int)
    ensures WithKey(SortByKey(s, key), key, k) == WithKey(s, key, k)
  {
    if s != [] {
      var init, x := s[..|s| - 1], s[|s| - 1];
      assert s == init + [x];
      SortByKeyStable(init, key, k);
      SortByKeySorted(init, key);
      InsertByKeyStable(x, SortByKey(init, key), key, k);
      WithKeyAppend(init, [x], key, k);
      assert WithKey([x], key, k) == if key(x) == k then [x] else [];
    }
  }

  /** Every slice of an ordered sequence is ordered. */
  lemma SortedSlice<T>(s: seq<T>, key: T -> int, lo: nat, hi: nat)
    requires SortedByKey(s, key) && lo <= hi <= |s|
    ensures SortedByKey(s[lo..hi], key)
  {
    forall i, j | 0 <= i < j < hi - lo
      ensures key(s[lo..hi][i]) <= key(s[lo..hi][j])
    {
      assert s[lo..hi][i] == s[lo + i] && s[lo..hi][j] == s[lo + j];
    }
  }

  /** An already ordered sequence is left as it is. */
  lemma {:induction false} SortByKeyOfSorted<T>(s: seq<T>, key: T -> int)
    requires SortedByKey(s, key)
    ensures SortByKey(s, key) == s
  {
    if s != [] {
      var init, x := s[..|s| - 1], s[|s| - 1];
      assert s == init + [x];
      SortedSlice(s, key, 0, |s| - 1);
      SortByKeyOfSorted(init, key);
      forall i | 0 <= i < |init|
        ensures key(init[i]) <= key(x)
      {
        assert init[i] == s[i];
      }
      InsertAtEnd(x, init, key);
    }
  }

  lemma {:induction false} InsertAtEnd<T>(x: T, s: seq<T>, key: T -> int)
    requires forall i :: 0 <= i < |s| ==> key(s[i]) <= key(x)
    ensures InsertByKey(x, s, key) == s + [x]
  {
    if s != [] {
      InsertAtEnd(x, s[1..], key);
      assert s == [s[0]] + s[1..];
    }
  }
}
