/** Sequence helpers shared by the models: JavaScript's `filter`, `slice(0, n)`,
    `reduce((sum, t) => sum + f(t), 0)` and `String.prototype.includes`, stated on
    Dafny sequences. */
module Seqs {

  datatype Option<T> = None | Some(value: T)

  /** `x || []` for a list a GraphQL response may leave out. */
  function OrEmpty<T>(o: Option<seq<T>>): seq<T>
  {
    match o
    case Some(s) => s
    case None => []
  }

  function Min(a: int, b: int): int
  {
    if a <= b then a else b
  }

  function Abs(x: int): (r: nat)
    ensures r == x || r == -x
  {
    if x < 0 then -x else x
  }

  /** `(part / whole) * 100` on exact rationals. */
  function Percent(part: nat, whole: nat): (rate: real)
    requires 0 < whole && part <= whole
    ensures rate * whole as real == 100.0 * part as real
    ensures 0.0 <= rate <= 100.0
  {
    var rate := (100 * part) as real / whole as real;
    assert rate * whole as real == (100 * part) as real;
    assert rate <= 100.0 by {
      if rate > 100.0 {
        MulLess(100.0, rate, whole as real);
      }
    }
    rate
  }

  lemma MulLess(a: real, b: real, c: real)
    requires a < b && c > 0.0
    ensures a * c < b * c
  {
  }

  /** `s.slice(0, n)`: the first `n` elements, or all of `s` when it is shorter. */
  function Take<T>(s: seq<T>, n: nat): (r: seq<T>)
    ensures |r| == Min(n, |s|)
    ensures r <= s
  {
    if |s| <= n then s else s[..n]
  }

  /** `s.filter(p)`: the elements of `s` that satisfy `p`, in their original order. */
  function Filter<T>(s: seq<T>, p: T -> bool): (r: seq<T>)
    ensures |r| <= |s|
  {
    if s == [] then [] else Filter(s[..|s| - 1], p) + (if p(s[|s| - 1]) then [s[|s| - 1]] else [])
  }

  lemma FilterSnoc<T>(s: seq<T>, x: T, p: T -> bool)
    ensures Filter(s + [x], p) == Filter(s, p) + (if p(x) then [x] else [])
  {
    assert (s + [x])[..|s|] == s;
  }

  lemma FilterCons<T>(x: T, s: seq<T>, p: T -> bool)
    ensures Filter([x] + s, p) == (if p(x) then [x] else []) + Filter(s, p)
  {
    FilterAppend([x], s, p);
    FilterSnoc([], x, p);
    assert [] + [x] == [x];
  }

  lemma {:induction false} FilterAppend<T>(a: seq<T>, b: seq<T>, p: T -> bool)
    ensures Filter(a + b, p) == Filter(a, p) + Filter(b, p)
  {
    if b != [] {
      var b' := b[..|b| - 1];
      assert (a + b)[..|a + b| - 1] == a + b';
      FilterAppend(a, b', p);
    } else {
      assert a + b == a;
    }
  }

  /** Filtering keeps every element that satisfies `p` exactly as often as it occurs, and drops the rest. */
  lemma {:induction false} FilterMultiset<T>(s: seq<T>, p: T -> bool)
    ensures forall x :: multiset(Filter(s, p))[x] == if p(x) then multiset(s)[x] else 0
  {
    if s != [] {
      var s' := s[..|s| - 1];
      FilterMultiset(s', p);
      assert s == s' + [s[|s| - 1]];
    }
  }

  lemma FilterMembers<T>(s: seq<T>, p: T -> bool)
    ensures forall x :: x in Filter(s, p) <==> x in s && p(x)
  {
    FilterMultiset(s, p);
    forall x ensures x in Filter(s, p) <==> x in s && p(x) {
      assert x in Filter(s, p) <==> x in multiset(Filter(s, p));
      assert x in s <==> x in multiset(s);
    }
  }

  lemma {:induction false} FilterAll<T>(s: seq<T>, p: T -> bool)
    requires forall i :: 0 <= i < |s| ==> p(s[i])
    ensures Filter(s, p) == s
  {
    if s != [] {
      FilterAll(s[..|s| - 1], p);
      assert s == s[..|s| - 1] + [s[|s| - 1]];
    }
  }

  lemma {:induction false} FilterNone<T>(s: seq<T>, p: T -> bool)
    requires forall i :: 0 <= i < |s| ==> !p(s[i])
    ensures Filter(s, p) == []
  {
    if s != [] {
      FilterNone(s[..|s| - 1], p);
    }
  }

  /** A predicate and its negation split a sequence in two: the halves add up to the whole. */
  lemma {:induction false} FilterPartition<T>(s: seq<T>, q: T -> bool, r: T -> bool)
    requires forall x :: r(x) == !q(x)
    ensures |Filter(s, q)| + |Filter(s, r)| == |s|
  {
    if s != [] {
      FilterPartition(s[..|s| - 1], q, r);
    }
  }

  /** Filtering twice is filtering once by the conjunction. */
  lemma {:induction false} FilterFilter<T>(s: seq<T>, p: T -> bool, q: T -> bool, r: T -> bool)
    requires forall x :: r(x) == (p(x) && q(x))
    ensures Filter(Filter(s, p), q) == Filter(s, r)
  {
    if s != [] {
      var s' := s[..|s| - 1];
      FilterFilter(s', p, q, r);
      FilterAppend(Filter(s', p), if p(s[|s| - 1]) then [s[|s| - 1]] else [], q);
    }
  }

  /** `s.reduce((sum, t) => sum + f(t), 0)`. */
  function SumBy<T>(s: seq<T>, f: T -> int): int
  {
    if s == [] then 0 else SumBy(s[..|s| - 1], f) + f(s[|s| - 1])
  }

  lemma {:induction false} SumByAppend<T>(a: seq<T>, b: seq<T>, f: T -> int)
    ensures SumBy(a + b, f) == SumBy(a, f) + SumBy(b, f)
  {
    if b != [] {
      var b' := b[..|b| - 1];
      assert (a + b)[..|a + b| - 1] == a + b';
      SumByAppend(a, b', f);
    } else {
      assert a + b == a;
    }
  }

  /** `s.includes(sub)`: `sub` occurs in `s` as a contiguous piece. */
  predicate Contains(s: string, sub: string)
  {
    if |s| < |sub| then false else s[..|sub|] == sub || Contains(s[1..], sub)
  }
}
