/**
 * Python's `list.sort(key=...)`: the result is ordered by the key, is a
 * permutation of the input, and is stable (elements with equal keys keep
 * their input order). Insertion sort stands in for the library routine.
 */
module Sorting {

  /** Keys never decrease along the sequence. */
  ghost predicate SortedBy<T>(s: seq<T>, key: T -> real)
  {
    forall i, j :: 0 <= i < j < |s| ==> key(s[i]) <= key(s[j])
  }

  /** Inserts x before the first element whose key is above x's, so after its equals. */
  function Insert<T>(x: T, s: seq<T>, key: T -> real): (r: seq<T>)
    ensures |r| == |s| + 1
  {
    if s == [] || key(x) < key(s[0]) then [x] + s
    else [s[0]] + Insert(x, s[1..], key)
  }

  /** Inserting into a sorted sequence keeps it sorted; the head is x or the old head. */
  lemma {:induction false} InsertSorted<T>(x: T, s: seq<T>, key: T -> real)
    requires SortedBy(s, key)
    ensures SortedBy(Insert(x, s, key), key)
    ensures Insert(x, s, key)[0] == x || (s != [] && Insert(x, s, key)[0] == s[0])
  {
    if s == [] || key(x) < key(s[0]) {
      PrependSorted(x, s, key);
    } else {
      var rest := Insert(x, s[1..], key);
      assert SortedBy(s[1..], key);
      InsertSorted(x, s[1..], key);
      assert key(s[0]) <= key(rest[0]);
      PrependSorted(s[0], rest, key);
    }
  }

  /** Inserting adds exactly x to the elements. */
  lemma {:induction false} InsertPermutes<T>(x: T, s: seq<T>, key: T -> real)
    ensures multiset(Insert(x, s, key)) == multiset(s) + multiset{x}
  {
    if s == [] || key(x) < key(s[0]) {
      assert Insert(x, s, key) == [x] + s;
    } else {
      var rest := Insert(x, s[1..], key);
      assert Insert(x, s, key) == [s[0]] + rest;
      InsertPermutes(x, s[1..], key);
      assert s == [s[0]] + s[1..];
      assert multiset([s[0]] + rest) == multiset{s[0]} + multiset(rest);
    }
  }

  /** An element keyed no higher than the head of a sorted sequence can go in front of it. */
  lemma PrependSorted<T>(y: T, s: seq<T>, key: T -> real)
    requires SortedBy(s, key)
    requires s != [] ==> key(y) <= key(s[0])
    ensures SortedBy([y] + s, key)
  {
    var r := [y] + s;
    forall i, j | 0 <= i < j < |r| ensures key(r[i]) <= key(r[j]) {
      assert r[j] == s[j - 1];
      if i > 0 {
        assert r[i] == s[i - 1];
      }
    }
  }

  /** Sorts by ascending key. */
  function Sort<T>(s: seq<T>, key: T -> real): (r: seq<T>)
    ensures SortedBy(r, key)
    ensures multiset(r) == multiset(s)
    ensures |r| == |s|
  {
    if s == [] then []
    else
      var init := Sort(s[..|s| - 1], key);
      SortStep(s, init, key);
      Insert(s[|s| - 1], init, key)
  }

  /** Inserting the last element into the sorted prefix sorts the whole. */
  lemma SortStep<T>(s: seq<T>, init: seq<T>, key: T -> real)
    requires s != []
    requires SortedBy(init, key) && multiset(init) == multiset(s[..|s| - 1])
    ensures SortedBy(Insert(s[|s| - 1], init, key), key)
    ensures multiset(Insert(s[|s| - 1], init, key)) == multiset(s)
  {
    var last := s[|s| - 1];
    InsertSorted(last, init, key);
    InsertPermutes(last, init, key);
    assert s == s[..|s| - 1] + [last];
  }

  /** The elements of s whose key is k, in their order in s. */
  function WithKey<T>(s: seq<T>, key: T -> real, k: real): seq<T>
  {
    if s == [] then []
    else (if key(s[0]) == k then [s[0]] else []) + WithKey(s[1..], key, k)
  }

  lemma {:induction false} WithKeyAppend<T>(s: seq<T>, t: seq<T>, key: T -> real, k: real)
    ensures WithKey(s + t, key, k) == WithKey(s, key, k) + WithKey(t, key, k)
  {
    if s == [] {
      assert s + t == t;
    } else {
      var head := if key(s[0]) == k then [s[0]] else [];
      var st := s + t;
      assert st[0] == s[0] && st[1..] == s[1..] + t;
      assert WithKey(st, key, k) == head + WithKey(s[1..] + t, key, k);
      WithKeyAppend(s[1..], t, key, k);
      assert WithKey(s, key, k) == head + WithKey(s[1..], key, k);
    }
  }

  /** No element of a sorted sequence whose head is above k has key k. */
  lemma {:induction false} WithKeyAboveHead<T>(s: seq<T>, key: T -> real, k: real)
    requires SortedBy(s, key)
    requires s != [] ==> k < key(s[0])
    ensures WithKey(s, key, k) == []
  {
    if s != [] {
      assert SortedBy(s[1..], key);
      if |s| > 1 {
        assert s[1..][0] == s[1];
      }
      WithKeyAboveHead(s[1..], key, k);
    }
  }

  /** Inserting x into a sorted sequence puts it after every element with the same key. */
  lemma {:induction false} InsertAfterEquals<T>(x: T, s: seq<T>, key: T -> real, k: real)
    requires SortedBy(s, key)
    ensures WithKey(Insert(x, s, key), key, k) == WithKey(s, key, k) + (if key(x) == k then [x] else [])
  {
    if s == [] || key(x) < key(s[0]) {
      if key(x) == k {
        WithKeyAboveHead(s, key, k);
      }
      assert ([x] + s)[1..] == s;
    } else {
      assert SortedBy(s[1..], key);
      InsertAfterEquals(x, s[1..], key, k);
      assert ([s[0]] + Insert(x, s[1..], key))[1..] == Insert(x, s[1..], key);
    }
  }

  /** `list.sort` is stable: the elements of any one key come out in input order. */
  lemma {:induction false} SortStable<T>(s: seq<T>, key: T -> real, k: real)
    ensures WithKey(Sort(s, key), key, k) == WithKey(s, key, k)
  {
    if s != [] {
      var init, last := s[..|s| - 1], s[|s| - 1];
      var sorted := Sort(init, key);
      assert Sort(s, key) == Insert(last, sorted, key);
      SortStable(init, key, k);
      InsertAfterEquals(last, sorted, key, k);
      assert s == init + [last];
      WithKeyAppend(init, [last], key, k);
      assert WithKey([last], key, k) == if key(last) == k then [last] else [] by {
        assert [last][1..] == [];
      }
    }
  }
}
