/** `list.sort(key=..., reverse=True)` followed by `[:k]`, as both strategist pipelines
    use it on the reranked publishers. Python's sort is stable, and `reverse=True` keeps
    it stable: elements with equal keys stay in their original order. The sort is
    specified by a stable insertion sort on sequences. */
module Ranking {

  /** Keys never increase from left to right. */
  predicate SortedDesc<T>(s: seq<T>, key: T -> int) {
    forall i, j :: 0 <= i < j < |s| ==> key(s[i]) >= key(s[j])
  }

  /** `x` placed after every element whose key is at least its own. */
  function Insert<T>(x: T, sorted: seq<T>, key: T -> int): (r: seq<T>)
    ensures |r| == |sorted| + 1
  {
    if sorted == [] then [x]
    else if key(sorted[0]) >= key(x) then [sorted[0]] + Insert(x, sorted[1..], key)
    else [x] + sorted
  }

  /** The elements inserted one at a time, left to right. */
  function SortDesc<T>(s: seq<T>, key: T -> int): (r: seq<T>)
    ensures |r| == |s|
  {
    if s == [] then [] else Insert(s[|s| - 1], SortDesc(s[..|s| - 1], key), key)
  }

  /** The elements with key `k`, in order. */
  function WithKey<T>(s: seq<T>, key: T -> int, k: int): seq<T> {
    if s == [] then []
    else WithKey(s[..|s| - 1], key, k) + (if key(s[|s| - 1]) == k then [s[|s| - 1]] else [])
  }

  /** `s[:k]`. */
  function Take<T>(s: seq<T>, k: nat): (r: seq<T>)
    ensures |r| == if |s| < k then |s| else k
    ensures r == s[..|r|]
  {
    if |s| > k then s[..k] else s
  }

  // ---------------------------------------------------------------------------
  // Sorted
  // ---------------------------------------------------------------------------

  lemma {:induction false} InsertSorted<T>(x: T, sorted: seq<T>, key: T -> int)
    requires SortedDesc(sorted, key)
    ensures SortedDesc(Insert(x, sorted, key), key)
  {
    if sorted != [] && key(sorted[0]) >= key(x) {
      var tail := sorted[1..];
      var rest := Insert(x, tail, key);
      InsertSorted(x, tail, key);
      InsertBounded(x, tail, key, key(sorted[0]));
      var r := [sorted[0]] + rest;
      forall i, j | 0 <= i < j < |r| ensures key(r[i]) >= key(r[j]) {
        assert r[j] == rest[j - 1];
        if i > 0 {
          assert r[i] == rest[i - 1];
        }
      }
    }
  }

  /** Inserting below a bound stays below it. */
  lemma {:induction false} InsertBounded<T>(x: T, s: seq<T>, key: T -> int, b: int)
    requires key(x) <= b
    requires forall i :: 0 <= i < |s| ==> key(s[i]) <= b
    ensures forall i :: 0 <= i < |Insert(x, s, key)| ==> key(Insert(x, s, key)[i]) <= b
  {
    if s != [] && key(s[0]) >= key(x) {
      InsertBounded(x, s[1..], key, b);
      var r := Insert(x, s, key);
      forall i | 0 <= i < |r| ensures key(r[i]) <= b {
        if i > 0 {
          assert r[i] == Insert(x, s[1..], key)[i - 1];
        }
      }
    }
  }

  lemma InsertHead<T>(x: T, sorted: seq<T>, key: T -> int)
    ensures multiset(Insert(x, sorted, key)) == multiset(sorted) + multiset{x}
  {
    if sorted != [] && key(sorted[0]) >= key(x) {
      InsertHead(x, sorted[1..], key);
      assert sorted == [sorted[0]] + sorted[1..];
    }
  }

  /** The result is sorted by key, largest first, and holds exactly the input's
      elements. */
  lemma {:induction false} SortDescSpec<T>(s: seq<T>, key: T -> int)
    ensures SortedDesc(SortDesc(s, key), key)
    ensures multiset(SortDesc(s, key)) == multiset(s)
  {
    if s != [] {
      var init := s[..|s| - 1];
      SortDescSpec(init, key);
      InsertSorted(s[|s| - 1], SortDesc(init, key), key);
      InsertHead(s[|s| - 1], SortDesc(init, key), key);
      assert s == init + [s[|s| - 1]];
    }
  }

  // ---------------------------------------------------------------------------
  // Stable
  // ---------------------------------------------------------------------------

  lemma {:induction false} WithKeyCons<T>(x: T, s: seq<T>, key: T -> int, k: int)
    ensures WithKey([x] + s, key, k) == (if key(x) == k then [x] else []) + WithKey(s, key, k)
  {
    if s != [] {
      var init := s[..|s| - 1];
      assert ([x] + s)[..|s|] == [x] + init;
      WithKeyCons(x, init, key, k);
    } else {
      assert ([x] + s)[..0] == [];
    }
  }

  lemma {:induction false} WithKeySnoc<T>(s: seq<T>, x: T, key: T -> int, k: int)
    ensures WithKey(s + [x], key, k) == WithKey(s, key, k) + (if key(x) == k then [x] else [])
  {
    assert (s + [x])[..|s|] == s;
  }

  /** No element of a sorted run has key `k` when its first key is below `k`. */
  lemma {:induction false} WithKeyBelow<T>(s: seq<T>, key: T -> int, k: int)
    requires SortedDesc(s, key)
    requires s != [] && key(s[0]) < k
    ensures WithKey(s, key, k) == []
  {
    if |s| > 1 {
      var init := s[..|s| - 1];
      assert init[0] == s[0];
      WithKeyBelow(init, key, k);
    }
  }

  /** Inserting `x` puts it after every equal-keyed element already there. */
  lemma {:induction false} InsertStable<T>(x: T, sorted: seq<T>, key: T -> int, k: int)
    requires SortedDesc(sorted, key)
    ensures WithKey(Insert(x, sorted, key), key, k)
            == WithKey(sorted, key, k) + (if key(x) == k then [x] else [])
  {
    if sorted == [] {
      WithKeySnoc([], x, key, k);
    } else if key(sorted[0]) >= key(x) {
      var tail := sorted[1..];
      assert SortedDesc(tail, key);
      InsertStable(x, tail, key, k);
      var head := if key(sorted[0]) == k then [sorted[0]] else [];
      var last := if key(x) == k then [x] else [];
      assert WithKey(Insert(x, sorted, key), key, k) == head + (WithKey(tail, key, k) + last) by {
        WithKeyCons(sorted[0], Insert(x, tail, key), key, k);
      }
      assert WithKey(sorted, key, k) == head + WithKey(tail, key, k) by {
        assert sorted == [sorted[0]] + tail;
        WithKeyCons(sorted[0], tail, key, k);
      }
    } else {
      WithKeyCons(x, sorted, key, k);
      if key(x) == k {
        WithKeyBelow(sorted, key, k);
      }
    }
  }

  /** Stability: for every key, the elements carrying it keep their input order. */
  lemma {:induction false} SortDescStable<T>(s: seq<T>, key: T -> int, k: int)
    ensures WithKey(SortDesc(s, key), key, k) == WithKey(s, key, k)
  {
    if s != [] {
      var init := s[..|s| - 1];
      SortDescStable(init, key, k);
      SortDescSpec(init, key);
      InsertStable(s[|s| - 1], SortDesc(init, key), key, k);
    }
  }

  // ---------------------------------------------------------------------------
  // The top k
  // ---------------------------------------------------------------------------

  /** `sorted(s)[:k]`: at most `k` elements, a prefix of the sorted list, sorted, and
      no element left out outranks one kept. */
  lemma TopK<T>(s: seq<T>, key: T -> int, k: nat)
    ensures var sorted := SortDesc(s, key);
            var top := Take(sorted, k);
            && |top| <= k && |top| <= |s|
            && top == sorted[..|top|]
            && SortedDesc(top, key)
            && forall i, j :: 0 <= i < |top| <= j < |sorted| ==> key(top[i]) >= key(sorted[j])
  {
    SortDescSpec(s, key);
  }
}
