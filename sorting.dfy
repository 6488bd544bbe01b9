/**
 * Sorting rows by a numeric key, as Python's `sorted(points, key=…)` does and as
 * pandas does before `nsmallest`/`nlargest` take their rows. Insertion sort that
 * keeps equal keys in their input order.
 */
module Sorting {

  predicate SortedBy<T>(xs: seq<T>, key: T -> real)
  {
    forall i, j :: 0 <= i < j < |xs| ==> key(xs[i]) <= key(xs[j])
  }

  /** Inserts `x` before the first element with a larger-or-equal key. */
  function InsertBy<T>(x: T, ys: seq<T>, key: T -> real): seq<T>
  {
    if ys == [] || key(x) <= key(ys[0]) then [x] + ys
    else [ys[0]] + InsertBy(x, ys[1..], key)
  }

  function SortBy<T>(xs: seq<T>, key: T -> real): seq<T>
  {
    if xs == [] then [] else InsertBy(xs[0], SortBy(xs[1..], key), key)
  }

  predicate AllAtLeast<T>(xs: seq<T>, v: real, key: T -> real)
  {
    forall k :: 0 <= k < |xs| ==> v <= key(xs[k])
  }

  lemma {:induction false} InsertByMultiset<T>(x: T, ys: seq<T>, key: T -> real)
    ensures multiset(InsertBy(x, ys, key)) == multiset(ys) + multiset{x}
    ensures |InsertBy(x, ys, key)| == |ys| + 1
  {
    if ys != [] && key(x) > key(ys[0]) {
      InsertByMultiset(x, ys[1..], key);
      assert ys == [ys[0]] + ys[1..];
    }
  }

  lemma {:induction false} InsertByAtLeast<T>(x: T, ys: seq<T>, v: real, key: T -> real)
    requires v <= key(x) && AllAtLeast(ys, v, key)
    ensures AllAtLeast(InsertBy(x, ys, key), v, key)
  {
    if ys != [] && key(x) > key(ys[0]) {
      InsertByAtLeast(x, ys[1..], v, key);
      var rest := InsertBy(x, ys[1..], key);
      assert forall k :: 0 < k <= |rest| ==> ([ys[0]] + rest)[k] == rest[k - 1];
    }
  }

  /** A sequence is sorted when its head bounds its sorted tail from below. */
  lemma SortedCons<T>(y: T, rest: seq<T>, key: T -> real)
    requires AllAtLeast(rest, key(y), key) && SortedBy(rest, key)
    ensures SortedBy([y] + rest, key)
  {
    var r := [y] + rest;
    forall i, j | 0 <= i < j < |r|
      ensures key(r[i]) <= key(r[j])
    {
      assert r[j] == rest[j - 1];
      if i > 0 {
        assert r[i] == rest[i - 1];
      }
    }
  }

  lemma {:induction false} InsertBySorted<T>(x: T, ys: seq<T>, key: T -> real)
    requires SortedBy(ys, key)
    ensures SortedBy(InsertBy(x, ys, key), key)
  {
    if ys == [] || key(x) <= key(ys[0]) {
      assert AllAtLeast(ys, key(x), key) by {
        forall k | 0 <= k < |ys| ensures key(x) <= key(ys[k]) {
          if k > 0 { assert key(ys[0]) <= key(ys[k]); }
        }
      }
      SortedCons(x, ys, key);
    } else {
      var tail := ys[1..];
      assert SortedBy(tail, key) by {
        forall i, j | 0 <= i < j < |tail| ensures key(tail[i]) <= key(tail[j]) {
          assert tail[i] == ys[i + 1] && tail[j] == ys[j + 1];
        }
      }
      assert AllAtLeast(tail, key(ys[0]), key) by {
        forall k | 0 <= k < |tail| ensures key(ys[0]) <= key(tail[k]) {
          assert tail[k] == ys[k + 1];
        }
      }
      InsertBySorted(x, tail, key);
      InsertByAtLeast(x, tail, key(ys[0]), key);
      SortedCons(ys[0], InsertBy(x, tail, key), key);
    }
  }

  /** The result is sorted by the key and holds exactly the input's elements. */
  lemma SortBySpec<T>(xs: seq<T>, key: T -> real)
    ensures SortedBy(SortBy(xs, key), key)
    ensures multiset(SortBy(xs, key)) == multiset(xs)
    ensures |SortBy(xs, key)| == |xs|
  {
    SortBySorted(xs, key);
    SortByPermutes(xs, key);
  }

  lemma {:induction false} SortBySorted<T>(xs: seq<T>, key: T -> real)
    ensures SortedBy(SortBy(xs, key), key)
  {
    if xs != [] {
      SortBySorted(xs[1..], key);
      InsertBySorted(xs[0], SortBy(xs[1..], key), key);
    }
  }

  lemma {:induction false} SortByPermutes<T>(xs: seq<T>, key: T -> real)
    ensures multiset(SortBy(xs, key)) == multiset(xs)
    ensures |SortBy(xs, key)| == |xs|
  {
    if xs != [] {
      SortByPermutes(xs[1..], key);
      InsertByMultiset(xs[0], SortBy(xs[1..], key), key);
      assert xs == [xs[0]] + xs[1..];
    }
  }

  /** The elements whose key is `v`, in order. */
  function WithKey<T>(xs: seq<T>, key: T -> real, v: real): (r: seq<T>)
    ensures |r| <= |xs|
  {
    if xs == [] then []
    else (if key(xs[0]) == v then [xs[0]] else []) + WithKey(xs[1..], key, v)
  }

  lemma WithKeyCons<T>(y: T, ys: seq<T>, key: T -> real, v: real)
    ensures WithKey([y] + ys, key, v) == (if key(y) == v then [y] else []) + WithKey(ys, key, v)
  {
    assert ([y] + ys)[0] == y;
    assert ([y] + ys)[1..] == ys;
  }

  lemma {:induction false} InsertByWithKey<T>(x: T, ys: seq<T>, key: T -> real, v: real)
    ensures WithKey(InsertBy(x, ys, key), key, v)
      == (if key(x) == v then [x] else []) + WithKey(ys, key, v)
  {
    if ys == [] || key(x) <= key(ys[0]) {
      WithKeyCons(x, ys, key, v);
    } else {
      var rest := InsertBy(x, ys[1..], key);
      InsertByWithKey(x, ys[1..], key, v);
      WithKeyCons(ys[0], rest, key, v);
      WithKeyCons(ys[0], ys[1..], key, v);
      assert [ys[0]] + ys[1..] == ys;
      if key(x) == v {
        assert key(ys[0]) != v;
      }
    }
  }

  /** Stability: the elements sharing any one key leave the sort in their input order. */
  lemma {:induction false} SortByStable<T>(xs: seq<T>, key: T -> real, v: real)
    ensures WithKey(SortBy(xs, key), key, v) == WithKey(xs, key, v)
  {
    if xs != [] {
      SortByStable(xs[1..], key, v);
      InsertByWithKey(xs[0], SortBy(xs[1..], key), key, v);
    }
  }
}
