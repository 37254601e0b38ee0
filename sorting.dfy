/**
 * `Array.prototype.sort` with a descending numeric comparator, as both sorts of the history
 * parser use it: a stable sort, here a functional insertion sort on an integer key.
 */
module Sorting {

  /** `x` placed after every element whose key is larger, before the first one that is not. */
  function Insert<T>(x: T, s: seq<T>, key: T -> int): (r: seq<T>)
    ensures |r| == |s| + 1
  {
    if s == [] then [x]
    else if key(x) >= key(s[0]) then [x] + s
    else [s[0]] + Insert(x, s[1..], key)
  }

  /** Inserting adds `x` and loses nothing. */
  lemma {:induction false} InsertPermutes<T>(x: T, s: seq<T>, key: T -> int)
    ensures multiset(Insert(x, s, key)) == multiset(s) + multiset{x}
  {
    if s != [] && key(x) < key(s[0]) {
      InsertPermutes(x, s[1..], key);
      assert s == [s[0]] + s[1..];
    }
  }

  /** The elements of `s`, largest key first; equal keys keep their input order. */
  function SortDesc<T>(s: seq<T>, key: T -> int): (r: seq<T>)
    ensures |r| == |s|
  {
    if s == [] then []
    else Insert(s[0], SortDesc(s[1..], key), key)
  }

  /** The sort is a permutation of its input. */
  lemma {:induction false} SortDescPermutes<T>(s: seq<T>, key: T -> int)
    ensures multiset(SortDesc(s, key)) == multiset(s)
  {
    if s != [] {
      SortDescPermutes(s[1..], key);
      InsertPermutes(s[0], SortDesc(s[1..], key), key);
      assert s == [s[0]] + s[1..];
    }
  }

  /** Keys never increase along `s`. */
  predicate SortedDesc<T>(s: seq<T>, key: T -> int)
  {
    forall i, j :: 0 <= i < j < |s| ==> key(s[i]) >= key(s[j])
  }

  /** Every element of `Insert(x, s)` is `x` or an element of `s`. */
  lemma InsertMembers<T>(x: T, s: seq<T>, key: T -> int, y: T)
    requires y in Insert(x, s, key)
    ensures y == x || y in s
  {
    InsertPermutes(x, s, key);
    assert multiset(Insert(x, s, key))[y] > 0;
  }

  lemma {:induction false} InsertSorted<T>(x: T, s: seq<T>, key: T -> int)
    requires SortedDesc(s, key)
    ensures SortedDesc(Insert(x, s, key), key)
  {
    if s != [] && key(x) < key(s[0]) {
      var tail := Insert(x, s[1..], key);
      InsertSorted(x, s[1..], key);
      forall j | 0 <= j < |tail|
        ensures key(s[0]) >= key(tail[j])
      {
        InsertMembers(x, s[1..], key, tail[j]);
      }
    }
  }

  /** The result is sorted, largest key first. */
  lemma {:induction false} SortDescSorted<T>(s: seq<T>, key: T -> int)
    ensures SortedDesc(SortDesc(s, key), key)
  {
    if s != [] {
      SortDescSorted(s[1..], key);
      InsertSorted(s[0], SortDesc(s[1..], key), key);
    }
  }

  /** The elements of `s` whose key is `c`, in order. */
  function WithKey<T>(s: seq<T>, key: T -> int, c: int): (r: seq<T>)
    ensures |r| <= |s|
  {
    if s == [] then []
    else if key(s[0]) == c then [s[0]] + WithKey(s[1..], key, c)
    else WithKey(s[1..], key, c)
  }

  lemma {:induction false} WithKeyAppend<T>(a: seq<T>, b: seq<T>, key: T -> int, c: int)
    ensures WithKey(a + b, key, c) == WithKey(a, key, c) + WithKey(b, key, c)
  {
    if a == [] {
      assert a + b == b;
    } else {
      assert (a + b)[0] == a[0] && (a + b)[1..] == a[1..] + b;
      WithKeyAppend(a[1..], b, key, c);
      if key(a[0]) == c {
        assert [a[0]] + (WithKey(a[1..], key, c) + WithKey(b, key, c))
            == ([a[0]] + WithKey(a[1..], key, c)) + WithKey(b, key, c);
      }
    }
  }

  lemma {:induction false} InsertWithKey<T>(x: T, s: seq<T>, key: T -> int, c: int)
    ensures WithKey(Insert(x, s, key), key, c) == WithKey([x], key, c) + WithKey(s, key, c)
  {
    if s == [] {
    } else if key(x) >= key(s[0]) {
      WithKeyAppend([x], s, key, c);
    } else {
      var tail := Insert(x, s[1..], key);
      var a, b, t := WithKey([x], key, c), WithKey([s[0]], key, c), WithKey(s[1..], key, c);
      InsertWithKey(x, s[1..], key, c);
      WithKeyAppend([s[0]], tail, key, c);
      assert WithKey(Insert(x, s, key), key, c) == b + (a + t);
      WithKeyAppend([s[0]], s[1..], key, c);
      assert [s[0]] + s[1..] == s;
      assert WithKey(s, key, c) == b + t;
      if a == [] {
        assert b + (a + t) == a + (b + t);
      } else {
        assert b == [];
        assert b + (a + t) == a + (b + t);
      }
    }
  }

  /**
   * The sort is stable: for every key, the elements with that key come out in the order
   * they went in.
   */
  lemma {:induction false} SortDescStable<T>(s: seq<T>, key: T -> int, c: int)
    ensures WithKey(SortDesc(s, key), key, c) == WithKey(s, key, c)
  {
    if s != [] {
      SortDescStable(s[1..], key, c);
      InsertWithKey(s[0], SortDesc(s[1..], key), key, c);
    }
  }

  /** Ordered by `key1` first and then, among equal `key1`, by `key2`, both largest first. */
  predicate LexSortedDesc<T>(s: seq<T>, key1: T -> int, key2: T -> int)
  {
    forall i, j :: 0 <= i < j < |s| ==>
      key1(s[i]) > key1(s[j]) || (key1(s[i]) == key1(s[j]) && key2(s[i]) >= key2(s[j]))
  }

  lemma {:induction false} InsertLex<T>(x: T, s: seq<T>, key1: T -> int, key2: T -> int)
    requires LexSortedDesc(s, key1, key2)
    requires forall j :: 0 <= j < |s| ==> key2(x) >= key2(s[j])
    ensures LexSortedDesc(Insert(x, s, key1), key1, key2)
  {
    if s != [] && key1(x) < key1(s[0]) {
      var tail := Insert(x, s[1..], key1);
      InsertLex(x, s[1..], key1, key2);
      forall j | 0 <= j < |tail|
        ensures key1(s[0]) > key1(tail[j]) || (key1(s[0]) == key1(tail[j]) && key2(s[0]) >= key2(tail[j]))
      {
        InsertMembers(x, s[1..], key1, tail[j]);
      }
    }
  }

  /**
   * Sorting by `key1` a sequence already sorted by `key2` orders it by `key1` and, among
   * equal `key1`, by `key2`.
   */
  lemma {:induction false} SortDescKeepsEarlierOrder<T>(s: seq<T>, key1: T -> int, key2: T -> int)
    requires SortedDesc(s, key2)
    ensures LexSortedDesc(SortDesc(s, key1), key1, key2)
  {
    if s != [] {
      var rest := SortDesc(s[1..], key1);
      SortDescKeepsEarlierOrder(s[1..], key1, key2);
      SortDescPermutes(s[1..], key1);
      forall j | 0 <= j < |rest|
        ensures key2(s[0]) >= key2(rest[j])
      {
        assert multiset(rest)[rest[j]] > 0;
        assert rest[j] in s[1..];
      }
      InsertLex(s[0], rest, key1, key2);
    }
  }
}
