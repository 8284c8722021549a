/**
 * A stable ascending sort by a real-valued key. It stands for the two
 * sorts of the program: `Array.prototype.sort` with a numeric comparator
 * (stable since ES2019) and SQL's `ORDER BY`. Also the order-keeping
 * filter of `Array.prototype.filter`.
 */
module Sorting {

  /** The elements of `s` that pass `keep`, in their order. */
  function Filter<T(!new)>(s: seq<T>, keep: T -> bool): (r: seq<T>)
    ensures |r| <= |s|
    ensures forall x :: x in r <==> x in s && keep(x)
  {
    if s == [] then []
    else
      assert s == [s[0]] + s[1..];
      (if keep(s[0]) then [s[0]] else []) + Filter(s[1..], keep)
  }

  /** `s` is in ascending order of `key`. */
  ghost predicate SortedBy<T>(s: seq<T>, key: T -> real) {
    forall i, j :: 0 <= i < j < |s| ==> key(s[i]) <= key(s[j])
  }

  /** Inserts `x` before the first element whose key is not smaller. */
  function Insert<T>(x: T, s: seq<T>, key: T -> real): (r: seq<T>)
    ensures multiset(r) == multiset(s) + multiset{x}
    ensures |r| == |s| + 1
  {
    if s == [] || key(x) <= key(s[0]) then [x] + s
    else
      assert s == [s[0]] + s[1..];
      [s[0]] + Insert(x, s[1..], key)
  }

  /** Insertion sort: the head is inserted into the sorted tail. */
  function SortBy<T>(s: seq<T>, key: T -> real): (r: seq<T>)
    ensures multiset(r) == multiset(s)
    ensures |r| == |s|
  {
    if s == [] then []
    else
      assert s == [s[0]] + s[1..];
      Insert(s[0], SortBy(s[1..], key), key)
  }

  lemma {:induction false} InsertSorted<T>(x: T, s: seq<T>, key: T -> real)
    requires SortedBy(s, key)
    ensures SortedBy(Insert(x, s, key), key)
  {
    if s == [] || key(x) <= key(s[0]) {
    } else {
      InsertSorted(x, s[1..], key);
      var r := Insert(x, s[1..], key);
      assert multiset(r) == multiset(s[1..]) + multiset{x};
      forall k | 0 <= k < |r| ensures key(s[0]) <= key(r[k]) {
        assert r[k] in multiset(r);
        assert r[k] == x || r[k] in multiset(s[1..]);
        if r[k] != x {
          var m :| 0 <= m < |s[1..]| && s[1..][m] == r[k];
          assert s[m + 1] == r[k];
        }
      }
    }
  }

  /** The sort yields its input's elements in ascending key order. */
  lemma {:induction false} SortBySorted<T>(s: seq<T>, key: T -> real)
    ensures SortedBy(SortBy(s, key), key)
  {
    if s != [] {
      SortBySorted(s[1..], key);
      InsertSorted(s[0], SortBy(s[1..], key), key);
    }
  }

  /** The elements of `s` whose key is `v`, in their order. */
  function WithKey<T>(s: seq<T>, key: T -> real, v: real): (r: seq<T>)
    ensures forall i :: 0 <= i < |r| ==> key(r[i]) == v
  {
    if s == [] then []
    else (if key(s[0]) == v then [s[0]] else []) + WithKey(s[1..], key, v)
  }

  /** Putting one element in front of a sequence puts it in front of its key class. */
  lemma WithKeyCons<T>(x: T, s: seq<T>, key: T -> real, v: real)
    ensures WithKey([x] + s, key, v) == (if key(x) == v then [x] else []) + WithKey(s, key, v)
  {
    assert ([x] + s)[1..] == s;
  }

  /** Two prefixes commute when one of them is empty. */
  lemma SwapPrefixes<T>(xs: seq<T>, ys: seq<T>, w: seq<T>)
    requires xs == [] || ys == []
    ensures ys + (xs + w) == xs + (ys + w)
  {
    if xs == [] {
      assert xs + w == w && xs + (ys + w) == ys + w;
    } else {
      assert ys + (xs + w) == xs + w && ys + w == w;
    }
  }

  /** An element with a larger key than the head is inserted into the tail. */
  lemma InsertPast<T>(x: T, s: seq<T>, key: T -> real)
    requires s != [] && key(x) > key(s[0])
    ensures Insert(x, s, key) == [s[0]] + Insert(x, s[1..], key)
  {
  }

  lemma {:induction false} WithKeyInsert<T>(x: T, s: seq<T>, key: T -> real, v: real)
    ensures WithKey(Insert(x, s, key), key, v) == WithKey([x] + s, key, v)
  {
    if s != [] && key(x) > key(s[0]) {
      var tail := s[1..];
      var xs := if key(x) == v then [x] else [];
      var ys := if key(s[0]) == v then [s[0]] else [];
      var w := WithKey(tail, key, v);
      var inserted := Insert(x, tail, key);
      InsertPast(x, s, key);
      WithKeyInsert(x, tail, key, v);
      WithKeyCons(s[0], inserted, key, v);
      WithKeyCons(x, tail, key, v);
      assert WithKey(Insert(x, s, key), key, v) == ys + (xs + w);
      SwapPrefixes(xs, ys, w);
      assert [s[0]] + tail == s;
      WithKeyCons(s[0], tail, key, v);
      WithKeyCons(x, s, key, v);
    }
  }

  /**
   * The sort is stable: the elements sharing any one key keep the order
   * they had in the input.
   */
  lemma {:induction false} SortByStable<T>(s: seq<T>, key: T -> real, v: real)
    ensures WithKey(SortBy(s, key), key, v) == WithKey(s, key, v)
  {
    if s != [] {
      SortByStable(s[1..], key, v);
      WithKeyInsert(s[0], SortBy(s[1..], key), key, v);
      WithKeyCons(s[0], SortBy(s[1..], key), key, v);
      WithKeyCons(s[0], s[1..], key, v);
      assert [s[0]] + s[1..] == s;
    }
  }

  /** Membership is preserved by the sort, in both directions. */
  lemma SortByMembers<T>(s: seq<T>, key: T -> real, x: T)
    ensures x in SortBy(s, key) <==> x in s
  {
    var r := SortBy(s, key);
    assert x in r <==> x in multiset(r);
    assert x in s <==> x in multiset(s);
  }

  /** How many elements of `s` have a key strictly below `bound`. */
  function CountBelow<T>(s: seq<T>, key: T -> real, bound: real): (n: nat)
    ensures n <= |s|
  {
    if s == [] then 0
    else (if key(s[0]) < bound then 1 else 0) + CountBelow(s[1..], key, bound)
  }

  lemma {:induction false} CountBelowInsert<T>(x: T, s: seq<T>, key: T -> real, bound: real)
    ensures CountBelow(Insert(x, s, key), key, bound) == CountBelow([x] + s, key, bound)
  {
    assert ([x] + s)[1..] == s;
    if s != [] && key(x) > key(s[0]) {
      CountBelowInsert(x, s[1..], key, bound);
      assert ([x] + s[1..])[1..] == s[1..];
      assert Insert(x, s, key)[1..] == Insert(x, s[1..], key);
    }
  }

  /** Sorting does not change how many elements lie below a bound. */
  lemma {:induction false} CountBelowSortBy<T>(s: seq<T>, key: T -> real, bound: real)
    ensures CountBelow(SortBy(s, key), key, bound) == CountBelow(s, key, bound)
  {
    if s != [] {
      CountBelowSortBy(s[1..], key, bound);
      CountBelowInsert(s[0], SortBy(s[1..], key), key, bound);
      assert ([s[0]] + SortBy(s[1..], key))[1..] == SortBy(s[1..], key);
    }
  }

  lemma {:induction false} CountBelowNone<T>(s: seq<T>, key: T -> real, bound: real)
    requires forall i :: 0 <= i < |s| ==> bound <= key(s[i])
    ensures CountBelow(s, key, bound) == 0
  {
    if s != [] {
      CountBelowNone(s[1..], key, bound);
    }
  }

  /** In a sorted sequence at most `k` elements are strictly below the key at position `k`. */
  lemma {:induction false} CountBelowSorted<T>(s: seq<T>, key: T -> real, k: nat)
    requires SortedBy(s, key) && k < |s|
    ensures CountBelow(s, key, key(s[k])) <= k
  {
    if k == 0 {
      CountBelowNone(s[1..], key, key(s[0]));
    } else {
      assert s[1..][k - 1] == s[k];
      CountBelowSorted(s[1..], key, k - 1);
    }
  }

  /** No two elements of `s` share a value of `field`. */
  ghost predicate UniqueBy<T>(s: seq<T>, field: T -> int)
  {
    forall i, j :: 0 <= i < j < |s| ==> field(s[i]) != field(s[j])
  }

  lemma {:induction false} InsertKeepsUnique<T>(x: T, s: seq<T>, key: T -> real, field: T -> int)
    requires UniqueBy(s, field)
    requires forall k :: 0 <= k < |s| ==> field(s[k]) != field(x)
    ensures UniqueBy(Insert(x, s, key), field)
  {
    if s != [] && key(x) > key(s[0]) {
      InsertKeepsUnique(x, s[1..], key, field);
      var r := Insert(x, s[1..], key);
      forall k | 0 <= k < |r|
        ensures field(r[k]) != field(s[0])
      {
        assert r[k] in multiset(r);
        if r[k] != x {
          var m :| 0 <= m < |s[1..]| && s[1..][m] == r[k];
          assert s[m + 1] == r[k];
        }
      }
    }
  }

  /** Sorting keeps a field that was unique unique. */
  lemma {:induction false} SortByKeepsUnique<T>(s: seq<T>, key: T -> real, field: T -> int)
    requires UniqueBy(s, field)
    ensures UniqueBy(SortBy(s, key), field)
  {
    if s != [] {
      SortByKeepsUnique(s[1..], key, field);
      var r := SortBy(s[1..], key);
      forall k | 0 <= k < |r|
        ensures field(r[k]) != field(s[0])
      {
        assert r[k] in multiset(r);
        var m :| 0 <= m < |s[1..]| && s[1..][m] == r[k];
        assert s[m + 1] == r[k];
      }
      InsertKeepsUnique(s[0], r, key, field);
    }
  }
}
