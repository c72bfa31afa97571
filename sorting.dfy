/**
 * Python's `sorted(xs, key=...)` on integer keys: a stable sort. It is modelled as an
 * insertion sort and characterised by the three facts that determine it: the result is
 * ordered by key, it is a permutation of the input, and elements with equal keys keep
 * their input order.
 */
module Sorting {

  predicate SortedBy<T>(xs: seq<T>, key: T -> int)
  {
    forall i, j :: 0 <= i < j < |xs| ==> key(xs[i]) <= key(xs[j])
  }

  /** The elements of `xs` whose key is `v`, in their order in `xs`. */
  function WithKey<T>(xs: seq<T>, key: T -> int, v: int): (r: seq<T>)
    ensures |r| <= |xs|
  {
    if xs == [] then []
    else (if key(xs[0]) == v then [xs[0]] else []) + WithKey(xs[1..], key, v)
  }

  /** `x` placed before the first element of `s` with a larger key. */
  function Insert<T>(s: seq<T>, x: T, key: T -> int): (r: seq<T>)
    ensures |r| == |s| + 1
  {
    if s == [] then [x]
    else if key(x) < key(s[0]) then [x] + s
    else [s[0]] + Insert(s[1..], x, key)
  }

  /** `sorted(xs, key=key)` */
  function SortBy<T>(xs: seq<T>, key: T -> int): (r: seq<T>)
    ensures |r| == |xs|
  {
    if xs == [] then [] else Insert(SortBy(xs[..|xs| - 1], key), xs[|xs| - 1], key)
  }

  // ------------------------------------------------------------------ insertion

  lemma {:induction false} InsertSorted<T>(s: seq<T>, x: T, key: T -> int)
    requires SortedBy(s, key)
    ensures SortedBy(Insert(s, x, key), key)
    ensures forall i :: 0 <= i < |Insert(s, x, key)| ==>
      Insert(s, x, key)[i] == x || Insert(s, x, key)[i] in s
  {
    if s != [] && key(x) >= key(s[0]) {
      InsertSorted(s[1..], x, key);
      var r := Insert(s[1..], x, key);
      assert Insert(s, x, key) == [s[0]] + r;
      forall i | 0 <= i < |r|
        ensures key(s[0]) <= key(r[i])
      {
        if r[i] != x {
          assert r[i] in s[1..];
          var j :| 0 <= j < |s[1..]| && s[1..][j] == r[i];
          assert s[j + 1] == r[i];
        }
      }
      forall i | 0 <= i < |r|
        ensures r[i] == x || r[i] in s
      {
        if r[i] != x {
          assert r[i] in s[1..];
        }
      }
    }
  }

  lemma {:induction false} InsertPermutes<T>(s: seq<T>, x: T, key: T -> int)
    ensures multiset(Insert(s, x, key)) == multiset(s) + multiset{x}
  {
    if s != [] && key(x) >= key(s[0]) {
      InsertPermutes(s[1..], x, key);
      assert s == [s[0]] + s[1..];
    }
  }

  lemma {:induction false} WithKeyConcat<T>(a: seq<T>, b: seq<T>, key: T -> int, v: int)
    ensures WithKey(a + b, key, v) == WithKey(a, key, v) + WithKey(b, key, v)
  {
    if a == [] {
      assert a + b == b;
    } else {
      var x, t := a[0], a[1..];
      assert a == [x] + t;
      assert a + b == [x] + (t + b);
      WithKeyConcat(t, b, key, v);
      var head := if key(x) == v then [x] else [];
      assert head + (WithKey(t, key, v) + WithKey(b, key, v)) == (head + WithKey(t, key, v)) + WithKey(b, key, v);
    }
  }

  lemma {:induction false} WithKeyEmpty<T>(s: seq<T>, key: T -> int, v: int)
    requires forall i :: 0 <= i < |s| ==> key(s[i]) != v
    ensures WithKey(s, key, v) == []
  {
    if s != [] {
      WithKeyEmpty(s[1..], key, v);
    }
  }

  lemma WithKeyCons<T>(y: T, r: seq<T>, key: T -> int, v: int)
    ensures WithKey([y] + r, key, v) == (if key(y) == v then [y] else []) + WithKey(r, key, v)
  {
    assert ([y] + r)[1..] == r;
  }

  lemma SortedTail<T>(s: seq<T>, key: T -> int)
    requires s != [] && SortedBy(s, key)
    ensures SortedBy(s[1..], key)
    ensures forall i :: 0 <= i < |s| ==> key(s[0]) <= key(s[i])
  {
    var t := s[1..];
    forall i, j | 0 <= i < j < |t|
      ensures key(t[i]) <= key(t[j])
    {
      assert t[i] == s[i + 1] && t[j] == s[j + 1];
    }
  }

  /** `x` goes in front: no element of `s` shares its key. */
  lemma InsertFrontWithKey<T>(s: seq<T>, x: T, key: T -> int, v: int)
    requires s != [] && SortedBy(s, key) && key(x) < key(s[0])
    ensures WithKey(Insert(s, x, key), key, v)
      == WithKey(s, key, v) + (if key(x) == v then [x] else [])
  {
    WithKeyCons(x, s, key, v);
    if key(x) == v {
      SortedTail(s, key);
      WithKeyEmpty(s, key, v);
    }
  }

  lemma {:induction false} InsertWithKey<T>(s: seq<T>, x: T, key: T -> int, v: int)
    requires SortedBy(s, key)
    ensures WithKey(Insert(s, x, key), key, v)
      == WithKey(s, key, v) + (if key(x) == v then [x] else [])
  {
    if s == [] {
      WithKeyCons(x, [], key, v);
    } else if key(x) < key(s[0]) {
      InsertFrontWithKey(s, x, key, v);
    } else {
      SortedTail(s, key);
      InsertWithKey(s[1..], x, key, v);
      WithKeyCons(s[0], Insert(s[1..], x, key), key, v);
      WithKeyCons(s[0], s[1..], key, v);
      assert [s[0]] + s[1..] == s;
    }
  }

  // ------------------------------------------------------------------ the sort

  /** The result is ordered by key. */
  lemma {:induction false} SortBySorted<T>(xs: seq<T>, key: T -> int)
    ensures SortedBy(SortBy(xs, key), key)
  {
    if xs != [] {
      SortBySorted(xs[..|xs| - 1], key);
      InsertSorted(SortBy(xs[..|xs| - 1], key), xs[|xs| - 1], key);
    }
  }

  /** The result holds the same elements, as often as the input does. */
  lemma {:induction false} SortByPermutes<T>(xs: seq<T>, key: T -> int)
    ensures multiset(SortBy(xs, key)) == multiset(xs)
  {
    if xs != [] {
      var init := xs[..|xs| - 1];
      SortByPermutes(init, key);
      InsertPermutes(SortBy(init, key), xs[|xs| - 1], key);
      assert xs == init + [xs[|xs| - 1]];
    }
  }

  /** Stability: the elements with any one key keep their input order. */
  lemma {:induction false} SortByStable<T>(xs: seq<T>, key: T -> int, v: int)
    ensures WithKey(SortBy(xs, key), key, v) == WithKey(xs, key, v)
  {
    if xs != [] {
      var init := xs[..|xs| - 1];
      SortByStable(init, key, v);
      SortBySorted(init, key);
      InsertWithKey(SortBy(init, key), xs[|xs| - 1], key, v);
      WithKeyConcat(init, [xs[|xs| - 1]], key, v);
      assert init + [xs[|xs| - 1]] == xs;
    }
  }
}
