/** `Array.prototype.sort` with a numeric comparator `(a, b) => key(a) - key(b)`.
    The language has required this sort to be stable since ECMAScript 2019, so the
    model is a stable insertion sort; its results are characterised by three
    lemmas: sorted by key, a permutation, and stable (elements with equal keys keep
    their relative order). A descending sort is an ascending sort by the negated key. */
module Sorting {
  import opened Seqs

  ghost predicate SortedBy<T>(s: seq<T>, key: T -> int)
  {
    forall i, j :: 0 <= i < j < |s| ==> key(s[i]) <= key(s[j])
  }

  /** Inserts `x` in front of the first element whose key is not smaller, so `x`
      lands before the elements whose key equals its own. */
  function Insert<T>(x: T, s: seq<T>, key: T -> int): seq<T>
  {
    if s == [] || key(x) <= key(s[0]) then [x] + s else [s[0]] + Insert(x, s[1..], key)
  }

  function StableSort<T>(s: seq<T>, key: T -> int): seq<T>
  {
    if s == [] then [] else Insert(s[0], StableSort(s[1..], key), key)
  }

  /** The elements whose key is `k`. */
  function HasKey<T>(key: T -> int, k: int): T -> bool
  {
    x => key(x) == k
  }

  lemma {:induction false} InsertMultiset<T>(x: T, s: seq<T>, key: T -> int)
    ensures multiset(Insert(x, s, key)) == multiset{x} + multiset(s)
  {
    if s != [] && key(x) > key(s[0]) {
      InsertMultiset(x, s[1..], key);
      assert s == [s[0]] + s[1..];
    }
  }

  lemma {:induction false} InsertSorted<T>(x: T, s: seq<T>, key: T -> int)
    requires SortedBy(s, key)
    ensures SortedBy(Insert(x, s, key), key)
  {
    if s != [] && key(x) > key(s[0]) {
      var rest := Insert(x, s[1..], key);
      InsertSorted(x, s[1..], key);
      InsertMultiset(x, s[1..], key);
      forall j | 0 <= j < |rest| ensures key(s[0]) <= key(rest[j]) {
        assert rest[j] in multiset(rest);
        if rest[j] != x {
          assert rest[j] in multiset(s[1..]);
          var m :| 0 <= m < |s[1..]| && s[1..][m] == rest[j];
          assert s[m + 1] == rest[j];
        }
      }
    }
  }

  lemma {:induction false} InsertStable<T>(x: T, s: seq<T>, key: T -> int, k: int)
    ensures Filter(Insert(x, s, key), HasKey(key, k)) == Filter([x] + s, HasKey(key, k))
  {
    var p := HasKey(key, k);
    if s != [] && key(x) > key(s[0]) {
      var s' := s[1..];
      assert Insert(x, s, key) == [s[0]] + Insert(x, s', key);
      assert s == [s[0]] + s';
      InsertStable(x, s', key, k);
      FilterCons(s[0], Insert(x, s', key), p);
      FilterCons(x, s', p);
      FilterCons(x, s, p);
      FilterCons(s[0], s', p);
      var cx := if p(x) then [x] else [];
      var c0 := if p(s[0]) then [s[0]] else [];
      assert c0 + cx == cx + c0 by {
        assert !(p(x) && p(s[0]));
      }
      assert Filter(Insert(x, s, key), p) == (c0 + cx) + Filter(s', p);
      assert Filter([x] + s, p) == (cx + c0) + Filter(s', p);
    }
  }

  lemma {:induction false} SortedPermutation<T>(s: seq<T>, key: T -> int)
    ensures multiset(StableSort(s, key)) == multiset(s)
    ensures |StableSort(s, key)| == |s|
  {
    if s != [] {
      SortedPermutation(s[1..], key);
      InsertMultiset(s[0], StableSort(s[1..], key), key);
      assert s == [s[0]] + s[1..];
    }
  }

  lemma {:induction false} SortedOrder<T>(s: seq<T>, key: T -> int)
    ensures SortedBy(StableSort(s, key), key)
  {
    if s != [] {
      SortedOrder(s[1..], key);
      InsertSorted(s[0], StableSort(s[1..], key), key);
    }
  }

  /** Stability: for every key, the elements carrying that key appear in the output
      in the same order as in the input. */
  lemma {:induction false} SortedStable<T>(s: seq<T>, key: T -> int, k: int)
    ensures Filter(StableSort(s, key), HasKey(key, k)) == Filter(s, HasKey(key, k))
  {
    if s != [] {
      var p := HasKey(key, k);
      SortedStable(s[1..], key, k);
      InsertStable(s[0], StableSort(s[1..], key), key, k);
      FilterAppend([s[0]], StableSort(s[1..], key), p);
      FilterAppend([s[0]], s[1..], p);
      assert s == [s[0]] + s[1..];
    }
  }

  /** A permutation leaves a sum unchanged. */
  lemma {:induction false} SortedSum<T>(s: seq<T>, key: T -> int, f: T -> int)
    ensures SumBy(StableSort(s, key), f) == SumBy(s, f)
  {
    if s != [] {
      SortedSum(s[1..], key, f);
      InsertSum(s[0], StableSort(s[1..], key), key, f);
      SumByAppend([s[0]], s[1..], f);
      assert s == [s[0]] + s[1..];
    }
  }

  lemma {:induction false} InsertSum<T>(x: T, s: seq<T>, key: T -> int, f: T -> int)
    ensures SumBy(Insert(x, s, key), f) == f(x) + SumBy(s, f)
  {
    if s == [] || key(x) <= key(s[0]) {
      SumByAppend([x], s, f);
    } else {
      InsertSum(x, s[1..], key, f);
      SumByAppend([s[0]], Insert(x, s[1..], key), f);
      SumByAppend([s[0]], s[1..], f);
      assert s == [s[0]] + s[1..];
    }
  }

  /** Under a sorted order, every element of a prefix has a key no greater than any
      element after it: what `sort(...).slice(0, n)` selects. */
  lemma PrefixBeforeRest<T>(s: seq<T>, key: T -> int, n: nat)
    requires SortedBy(s, key) && n <= |s|
    ensures forall x, y :: x in s[..n] && y in s[n..] ==> key(x) <= key(y)
  {
    forall x, y | x in s[..n] && y in s[n..] ensures key(x) <= key(y) {
      var i :| 0 <= i < n && s[..n][i] == x;
      var j :| 0 <= j < |s| - n && s[n..][j] == y;
      assert s[i] == x && s[n + j] == y;
    }
  }

  /** `sort(...).slice(0, n)` keeps min(n, |s|) elements drawn from `s`. */
  lemma TakeSortedDrawn<T>(s: seq<T>, key: T -> int, n: nat)
    ensures |Take(StableSort(s, key), n)| == Min(n, |s|)
    ensures multiset(Take(StableSort(s, key), n)) <= multiset(s)
  {
    var sorted := StableSort(s, key);
    var r := Take(sorted, n);
    SortedPermutation(s, key);
    var m := |r|;
    assert r == sorted[..m];
    assert sorted == r + sorted[m..];
    assert multiset(sorted) == multiset(r) + multiset(sorted[m..]);
  }

  /** ... in sorted order ... */
  lemma TakeSortedOrder<T>(s: seq<T>, key: T -> int, n: nat)
    ensures SortedBy(Take(StableSort(s, key), n), key)
  {
    SortedOrder(s, key);
  }

  /** ... and no element left behind has a smaller key than one that was taken. */
  lemma TakeSortedFirst<T>(s: seq<T>, key: T -> int, n: nat)
    ensures forall x, y :: x in Take(StableSort(s, key), n) && y in multiset(s) - multiset(Take(StableSort(s, key), n)) ==>
              key(x) <= key(y)
  {
    var sorted := StableSort(s, key);
    var r := Take(sorted, n);
    SortedPermutation(s, key);
    SortedOrder(s, key);
    var m := |r|;
    assert sorted == r + sorted[m..];
    assert multiset(s) - multiset(r) == multiset(sorted[m..]);
    PrefixBeforeRest(sorted, key, m);
    forall x, y | x in r && y in multiset(s) - multiset(r) ensures key(x) <= key(y) {
      assert y in sorted[m..];
    }
  }
}
