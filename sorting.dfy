/** Stable sorting by an integer key.

    Every comparator the tracker hands to `Array.prototype.sort` has the form
    `(a, b) => key(a) - key(b)` for some key (a due-date instant, a priority
    rank, a collation rank, or its negation when descending), and that sort is
    stable. `InsertionSort` is the reference definition; `SortInPlace` is the
    in-place algorithm, proved to compute it; `StableSortUnique` shows that any
    arrangement that is sorted and keeps the input order of equal keys is this
    one, so the engine's own stable sort agrees with it. */
module Sorting {

  /** Keys never decrease from left to right. */
  ghost predicate Sorted<T>(s: seq<T>, key: T -> int)
  {
    forall i, j :: 0 <= i < j < |s| ==> key(s[i]) <= key(s[j])
  }

  /** Inserts `x` into `t` after every trailing element whose key is larger,
      that is, after all elements with a key at most `key(x)`. */
  function InsertBack<T>(t: seq<T>, x: T, key: T -> int): (r: seq<T>)
    ensures |r| == |t| + 1
    ensures multiset(r) == multiset(t) + multiset{x}
    decreases |t|
  {
    if t == [] || key(t[|t| - 1]) <= key(x) then t + [x]
    else
      assert t == t[..|t| - 1] + [t[|t| - 1]];
      InsertBack(t[..|t| - 1], x, key) + [t[|t| - 1]]
  }

  /** Stable insertion sort, growing the sorted prefix one element at a time. */
  function InsertionSort<T>(s: seq<T>, key: T -> int): (r: seq<T>)
    ensures |r| == |s|
    ensures multiset(r) == multiset(s)
    decreases |s|
  {
    if s == [] then []
    else
      assert s == s[..|s| - 1] + [s[|s| - 1]];
      InsertBack(InsertionSort(s[..|s| - 1], key), s[|s| - 1], key)
  }

  /** The elements of `s` whose key is `k`, in their order in `s`. */
  function WithKey<T>(s: seq<T>, key: T -> int, k: int): seq<T>
    decreases |s|
  {
    if s == [] then []
    else WithKey(s[..|s| - 1], key, k) + (if key(s[|s| - 1]) == k then [s[|s| - 1]] else [])
  }

  // ---------------------------------------------------------------------------
  // Facts about the reference definition

  lemma {:induction false} WithKeyAppend<T>(t: seq<T>, x: T, key: T -> int, k: int)
    ensures WithKey(t + [x], key, k) == WithKey(t, key, k) + (if key(x) == k then [x] else [])
  {
    assert (t + [x])[..|t|] == t;
  }

  /** Every element `WithKey` picks is an element of `s` with key `k`. */
  lemma {:induction false} WithKeyElements<T>(s: seq<T>, key: T -> int, k: int)
    ensures forall i :: 0 <= i < |WithKey(s, key, k)| ==>
      WithKey(s, key, k)[i] in s && key(WithKey(s, key, k)[i]) == k
    decreases |s|
  {
    if s != [] {
      var init := s[..|s| - 1];
      WithKeyElements(init, key, k);
      assert forall y :: y in init ==> y in s;
    }
  }

  lemma {:induction false} InsertBackSorted<T>(t: seq<T>, x: T, key: T -> int)
    requires Sorted(t, key)
    ensures Sorted(InsertBack(t, x, key), key)
    decreases |t|
  {
    if t != [] && key(t[|t| - 1]) > key(x) {
      var init, last := t[..|t| - 1], t[|t| - 1];
      InsertBackSorted(init, x, key);
      InsertBackBound(init, x, key, key(last));
      var u := InsertBack(init, x, key);
      AppendAboveSorted(u, last, key);
    } else {
      AppendAboveSorted(t, x, key);
    }
  }

  /** Inserting keeps every key at most `b` when `x`'s key and all of `t`'s are. */
  lemma {:induction false} InsertBackBound<T>(t: seq<T>, x: T, key: T -> int, b: int)
    requires key(x) <= b
    requires forall i :: 0 <= i < |t| ==> key(t[i]) <= b
    ensures forall i :: 0 <= i < |InsertBack(t, x, key)| ==> key(InsertBack(t, x, key)[i]) <= b
    decreases |t|
  {
    if t != [] && key(t[|t| - 1]) > key(x) {
      var init := t[..|t| - 1];
      assert forall i :: 0 <= i < |init| ==> key(init[i]) <= b by {
        forall i | 0 <= i < |init| ensures key(init[i]) <= b { assert init[i] == t[i]; }
      }
      InsertBackBound(init, x, key, b);
    }
  }

  /** A sorted sequence followed by an element whose key is at least every key
      in it is sorted. */
  lemma AppendAboveSorted<T>(u: seq<T>, y: T, key: T -> int)
    requires Sorted(u, key)
    requires forall i :: 0 <= i < |u| ==> key(u[i]) <= key(y)
    ensures Sorted(u + [y], key)
  {
    var v := u + [y];
    forall i, j | 0 <= i < j < |v| ensures key(v[i]) <= key(v[j]) {
      assert v[i] == u[i];
      if j < |u| { assert v[j] == u[j]; }
    }
  }

  /** Inserting `x` puts it after every element of its key class. */
  lemma {:induction false} InsertBackWithKey<T>(t: seq<T>, x: T, key: T -> int, k: int)
    ensures WithKey(InsertBack(t, x, key), key, k) ==
            WithKey(t, key, k) + (if key(x) == k then [x] else [])
    decreases |t|
  {
    if t == [] || key(t[|t| - 1]) <= key(x) {
      WithKeyAppend(t, x, key, k);
    } else {
      var init, last := t[..|t| - 1], t[|t| - 1];
      assert t == init + [last];
      InsertBackWithKey(init, x, key, k);
      WithKeyAppend(InsertBack(init, x, key), last, key, k);
      WithKeyAppend(init, last, key, k);
    }
  }

  lemma {:induction false} InsertionSortSorted<T>(s: seq<T>, key: T -> int)
    ensures Sorted(InsertionSort(s, key), key)
    decreases |s|
  {
    if s != [] {
      InsertionSortSorted(s[..|s| - 1], key);
      InsertBackSorted(InsertionSort(s[..|s| - 1], key), s[|s| - 1], key);
    }
  }

  /** Stability: each key class keeps its input order. */
  lemma {:induction false} InsertionSortStable<T>(s: seq<T>, key: T -> int, k: int)
    ensures WithKey(InsertionSort(s, key), key, k) == WithKey(s, key, k)
    decreases |s|
  {
    if s != [] {
      var init, last := s[..|s| - 1], s[|s| - 1];
      InsertionSortStable(init, key, k);
      InsertBackWithKey(InsertionSort(init, key), last, key, k);
    }
  }

  /** Two sorted sequences with the same key classes, each in the same order,
      are equal. */
  lemma {:induction false} SortedUnique<T>(r: seq<T>, t: seq<T>, key: T -> int)
    requires Sorted(r, key) && Sorted(t, key)
    requires forall k :: WithKey(r, key, k) == WithKey(t, key, k)
    ensures r == t
    decreases |r| + |t|
  {
    if r == [] && t == [] {
    } else if r == [] {
      WitnessKey(t, r, key);
    } else if t == [] {
      WitnessKey(r, t, key);
    } else {
      var r0, a := r[..|r| - 1], r[|r| - 1];
      var t0, b := t[..|t| - 1], t[|t| - 1];
      LastKeysMatch(r, t, key);
      forall k ensures WithKey(r0, key, k) == WithKey(t0, key, k) {
        DropLastOfClass(r, t, key, k);
      }
      SortedUnique(r0, t0, key);
      assert r == r0 + [a] && t == t0 + [b];
    }
  }

  /** A key class present in a sorted sequence is at most its last key. */
  lemma InClassBound<T>(r: seq<T>, key: T -> int, k: int)
    requires Sorted(r, key) && WithKey(r, key, k) != []
    ensures r != [] && k <= key(r[|r| - 1])
  {
    WithKeyElements(r, key, k);
    var y := WithKey(r, key, k)[0];
    var i :| 0 <= i < |r| && r[i] == y;
  }

  /** Sorted sequences with the same key classes end with the same element. */
  lemma LastKeysMatch<T>(r: seq<T>, t: seq<T>, key: T -> int)
    requires Sorted(r, key) && Sorted(t, key) && r != [] && t != []
    requires forall k :: WithKey(r, key, k) == WithKey(t, key, k)
    ensures r[|r| - 1] == t[|t| - 1]
  {
    var a, b := r[|r| - 1], t[|t| - 1];
    assert WithKey(r, key, key(a)) == WithKey(r[..|r| - 1], key, key(a)) + [a];
    assert WithKey(t, key, key(b)) == WithKey(t[..|t| - 1], key, key(b)) + [b];
    InClassBound(r, key, key(b));
    InClassBound(t, key, key(a));
  }

  /** Removing one equal last element keeps the key classes equal. */
  lemma DropLastOfClass<T>(r: seq<T>, t: seq<T>, key: T -> int, k: int)
    requires r != [] && t != [] && r[|r| - 1] == t[|t| - 1]
    requires WithKey(r, key, k) == WithKey(t, key, k)
    ensures WithKey(r[..|r| - 1], key, k) == WithKey(t[..|t| - 1], key, k)
  {
    var a := r[|r| - 1];
    var x: seq<T> := if key(a) == k then [a] else [];
    var u, v := WithKey(r[..|r| - 1], key, k), WithKey(t[..|t| - 1], key, k);
    assert u + x == v + x;
    assert u == (u + x)[..|u|] && v == (v + x)[..|v|];
  }

  /** A non-empty sequence has a non-empty key class, which an empty one lacks. */
  lemma WitnessKey<T>(t: seq<T>, empty: seq<T>, key: T -> int)
    requires t != [] && empty == []
    ensures exists k :: WithKey(t, key, k) != WithKey(empty, key, k)
  {
    var b := t[|t| - 1];
    assert WithKey(t, key, key(b)) == WithKey(t[..|t| - 1], key, key(b)) + [b];
  }

  /** Any sorted arrangement of `s` that keeps the input order of equal keys is
      the insertion sort of `s`: every stable sort gives this result. */
  lemma StableSortUnique<T>(s: seq<T>, r: seq<T>, key: T -> int)
    requires Sorted(r, key)
    requires forall k :: WithKey(r, key, k) == WithKey(s, key, k)
    ensures r == InsertionSort(s, key)
  {
    InsertionSortSorted(s, key);
    forall k ensures WithKey(r, key, k) == WithKey(InsertionSort(s, key), key, k) {
      InsertionSortStable(s, key, k);
    }
    SortedUnique(r, InsertionSort(s, key), key);
  }

  /** Sorting what is already sorted changes nothing. */
  lemma SortSortedIsIdentity<T>(s: seq<T>, key: T -> int)
    requires Sorted(s, key)
    ensures InsertionSort(s, key) == s
  {
    StableSortUnique(s, s, key);
  }

  // ---------------------------------------------------------------------------
  // The in-place algorithm

  /** Where the scan of `InsertAt` stops, `InsertBack` puts `x`. */
  lemma {:induction false} InsertBackAt<T>(t: seq<T>, x: T, key: T -> int, j: nat)
    requires j <= |t|
    requires j == 0 || key(t[j - 1]) <= key(x)
    requires forall k :: j <= k < |t| ==> key(t[k]) > key(x)
    ensures InsertBack(t, x, key) == t[..j] + [x] + t[j..]
    decreases |t|
  {
    if j == |t| {
      assert t[..j] == t && t[j..] == [];
    } else {
      var init := t[..|t| - 1];
      ScanBoundsOfInit(t, init, x, key, j);
      InsertBackAt(init, x, key, j);
      ReassembleInsert(t, x, j);
    }
  }

  /** The scan's bounds carry over from `t` to `t` without its last element,
      and that last element moves behind `x`. */
  lemma ScanBoundsOfInit<T>(t: seq<T>, init: seq<T>, x: T, key: T -> int, j: nat)
    requires j < |t| && init == t[..|t| - 1]
    requires j == 0 || key(t[j - 1]) <= key(x)
    requires forall k :: j <= k < |t| ==> key(t[k]) > key(x)
    ensures j == 0 || key(init[j - 1]) <= key(x)
    ensures forall k :: j <= k < |init| ==> key(init[k]) > key(x)
    ensures InsertBack(t, x, key) == InsertBack(init, x, key) + [t[|t| - 1]]
  {
    assert key(t[|t| - 1]) > key(x);
  }

  /** Putting the last element back after inserting `x` at `j`. */
  lemma ReassembleInsert<T>(t: seq<T>, x: T, j: nat)
    requires j < |t|
    ensures (t[..|t| - 1][..j] + [x] + t[..|t| - 1][j..]) + [t[|t| - 1]] == t[..j] + [x] + t[j..]
  {
    var init := t[..|t| - 1];
    assert init[..j] == t[..j];
    assert init[j..] + [t[|t| - 1]] == t[j..];
  }

  /** Moves `a[i]` left past the larger keys before it, so that `a[..i + 1]`
      becomes `a[..i]` with the old `a[i]` inserted by `InsertBack`. */
  method InsertAt<T>(a: array<T>, i: nat, key: T -> int)
    requires i < a.Length
    modifies a
    ensures a[..i + 1] == InsertBack(old(a[..i]), old(a[i]), key)
    ensures a[i + 1..] == old(a[i + 1..])
  {
    var x := a[i];
    ghost var t := a[..i];
    var j := i;
    while j > 0 && key(a[j - 1]) > key(x)
      invariant 0 <= j <= i
      invariant forall k :: 0 <= k < j ==> a[k] == t[k]
      invariant forall k :: j < k <= i ==> a[k] == t[k - 1]
      invariant forall k :: i < k < a.Length ==> a[k] == old(a[k])
      invariant forall k :: j <= k < i ==> key(t[k]) > key(x)
    {
      a[j] := a[j - 1];
      j := j - 1;
    }
    a[j] := x;
    ShiftedIsInserted(a[..i + 1], t, x, key, j);
    assert a[i + 1..] == old(a[i + 1..]);
  }

  /** The array contents `InsertAt` leaves behind are `InsertBack(t, x)`. */
  lemma ShiftedIsInserted<T>(b: seq<T>, t: seq<T>, x: T, key: T -> int, j: nat)
    requires |b| == |t| + 1 && j <= |t|
    requires forall k :: 0 <= k < j ==> b[k] == t[k]
    requires b[j] == x
    requires forall k :: j < k < |b| ==> b[k] == t[k - 1]
    requires j == 0 || key(t[j - 1]) <= key(x)
    requires forall k :: j <= k < |t| ==> key(t[k]) > key(x)
    ensures b == InsertBack(t, x, key)
  {
    InsertBackAt(t, x, key, j);
    SpliceEquals(b, t, x, j);
  }

  /** A sequence that agrees with `t` around a gap at `j` holding `x` is
      `t` with `x` spliced in at `j`. */
  lemma SpliceEquals<T>(b: seq<T>, t: seq<T>, x: T, j: nat)
    requires |b| == |t| + 1 && j <= |t|
    requires forall k :: 0 <= k < j ==> b[k] == t[k]
    requires b[j] == x
    requires forall k :: j < k < |b| ==> b[k] == t[k - 1]
    ensures b == t[..j] + [x] + t[j..]
  {
    assert b[..j] == t[..j];
    assert b[j + 1..] == t[j..];
    assert b == b[..j] + [b[j]] + b[j + 1..];
  }

  /** One more element of the input is one more insertion. */
  lemma InsertionSortStep<T>(s: seq<T>, i: nat, key: T -> int)
    requires i < |s|
    ensures InsertionSort(s[..i + 1], key) == InsertBack(InsertionSort(s[..i], key), s[i], key)
  {
    assert s[..i + 1][..i] == s[..i];
  }

  /** Sorts `a` in place by `key`, keeping equal keys in their input order. */
  method SortInPlace<T>(a: array<T>, key: T -> int)
    modifies a
    ensures a[..] == InsertionSort(old(a[..]), key)
  {
    ghost var s := a[..];
    var i := 0;
    while i < a.Length
      invariant 0 <= i <= a.Length
      invariant a[..i] == InsertionSort(s[..i], key)
      invariant a[i..] == s[i..]
    {
      assert a[i] == s[i] && a[i + 1..] == s[i + 1..];
      InsertAt(a, i, key);
      InsertionSortStep(s, i, key);
      i := i + 1;
    }
    assert a[..] == a[..a.Length] && s == s[..a.Length];
  }
}
