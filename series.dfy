/** The XP chart's data: a running cumulative sum over entries sorted by date, and the
    down-sampling that keeps every ⌊n/20⌋-th point of a series longer than 20. */
module Series {
  import opened Seqs

  /** One transaction as the chart sees it: its date key, its amount and its project. */
  datatype Entry = Entry(date: int, xp: int, project: string)

  /** `{ date, xp, cumulativeXp, project }` */
  datatype Point = Point(date: int, xp: int, cumulativeXp: int, project: string)

  /** What the XP chart is given: either "No XP data available" or the points. */
  datatype XPChart = NoXPData | Chart(points: seq<Point>)

  /** Series longer than this are down-sampled. */
  const MaxPoints: nat := 20

  function EntryXP(e: Entry): int
  {
    e.xp
  }

  function PointAt(e: Entry, cumulativeXp: int): Point
  {
    Point(e.date, e.xp, cumulativeXp, e.project)
  }

  /** The series `map` builds while it adds each amount to `cumulativeXp`. */
  function Cumulative(es: seq<Entry>): (ps: seq<Point>)
    ensures |ps| == |es|
  {
    if es == [] then [] else Cumulative(es[..|es| - 1]) + [PointAt(es[|es| - 1], SumBy(es, EntryXP))]
  }

  /** `let cumulativeXp = 0; entries.map(e => { cumulativeXp += e.xp; return {...} })` */
  method Accumulate(es: seq<Entry>) returns (ps: seq<Point>)
    ensures ps == Cumulative(es)
    ensures forall i :: 0 <= i < |ps| ==> ps[i] == PointAt(es[i], SumBy(es[..i + 1], EntryXP))
  {
    var cumulativeXp := 0;
    ps := [];
    for i := 0 to |es|
      invariant ps == Cumulative(es[..i])
      invariant cumulativeXp == SumBy(es[..i], EntryXP)
    {
      var e := es[i];
      assert es[..i + 1][..i] == es[..i];
      cumulativeXp := cumulativeXp + e.xp;
      ps := ps + [PointAt(e, cumulativeXp)];
    }
    assert es[..|es|] == es;
    CumulativeIsPrefixSum(es);
  }

  /** Point `i` carries entry `i` and the sum of the amounts up to and including it. */
  lemma {:induction false} CumulativeIsPrefixSum(es: seq<Entry>)
    ensures forall i :: 0 <= i < |es| ==> Cumulative(es)[i] == PointAt(es[i], SumBy(es[..i + 1], EntryXP))
  {
    if es != [] {
      var es' := es[..|es| - 1];
      CumulativeIsPrefixSum(es');
      forall i | 0 <= i < |es| - 1 ensures es'[..i + 1] == es[..i + 1] && es'[i] == es[i] { }
      assert es[..|es|] == es;
    }
  }

  /** The last point's running total is the sum of all the amounts. */
  lemma CumulativeLast(es: seq<Entry>)
    requires es != []
    ensures Cumulative(es)[|es| - 1].cumulativeXp == SumBy(es, EntryXP)
  {
  }

  predicate StrictlyIncreasing(ps: seq<Point>)
  {
    forall i, j :: 0 <= i < j < |ps| ==> ps[i].cumulativeXp < ps[j].cumulativeXp
  }

  /** With every amount positive, the running total strictly increases. */
  lemma {:induction false} CumulativeIncreasing(es: seq<Entry>)
    requires forall i :: 0 <= i < |es| ==> es[i].xp > 0
    ensures StrictlyIncreasing(Cumulative(es))
  {
    if es != [] {
      var es' := es[..|es| - 1];
      CumulativeIncreasing(es');
      CumulativeIsPrefixSum(es');
      var ps := Cumulative(es);
      var last := |es| - 1;
      forall i | 0 <= i < last ensures ps[i].cumulativeXp < ps[last].cumulativeXp {
        PrefixSumGrows(es, i + 1, last + 1);
        CumulativeIsPrefixSum(es);
      }
    }
  }

  lemma {:induction false} PrefixSumGrows(es: seq<Entry>, a: nat, b: nat)
    requires a < b <= |es|
    requires forall i :: 0 <= i < |es| ==> es[i].xp > 0
    ensures SumBy(es[..a], EntryXP) < SumBy(es[..b], EntryXP)
  {
    assert es[..b][..b - 1] == es[..b - 1];
    if a < b - 1 {
      PrefixSumGrows(es, a, b - 1);
    }
  }

  /** `points.filter((_, index) => index % step === 0)` */
  function KeepEvery(ps: seq<Point>, step: nat): seq<Point>
    requires step > 0
  {
    if ps == [] then []
    else KeepEvery(ps[..|ps| - 1], step) + (if (|ps| - 1) % step == 0 then [ps[|ps| - 1]] else [])
  }

  /** `if (data.length > 20) data = data.filter(..., index % Math.floor(data.length / 20) === 0)` */
  function DownSample(ps: seq<Point>): seq<Point>
  {
    if |ps| <= MaxPoints then ps else KeepEvery(ps, |ps| / MaxPoints)
  }

  lemma DivMod(x: nat, step: nat)
    requires step > 0
    ensures x == (x / step) * step + x % step && 0 <= x % step < step
  {
  }

  lemma MulMono(a: int, b: int, step: nat)
    requires a <= b
    ensures a * step <= b * step
  {
    assert b * step - a * step == (b - a) * step;
  }

  lemma MulStrict(a: int, b: int, step: nat)
    requires a * step < b * step
    ensures a < b
  {
    if a >= b {
      MulMono(b, a, step);
    }
  }

  lemma ModMultiple(m: nat, step: nat)
    requires step > 0
    ensures (m * step) % step == 0
  {
    var x := m * step;
    DivMod(x, step);
    var q := x / step;
    assert (m - q) * step == x % step;
    if m - q >= 1 {
      MulMono(1, m - q, step);
    } else if m - q <= -1 {
      MulMono(m - q, -1, step);
    }
  }

  lemma MulLe(a: int, b: int, step: nat)
    requires step > 0 && a * step <= b * step
    ensures a <= b
  {
    if a > b {
      MulMono(b + 1, a, step);
    }
  }

  /** The only multiple of `step` in the window ((m - 1) * step, m * step] is m * step. */
  lemma MultipleBetween(x: nat, m: int, step: nat)
    requires step > 0 && (m - 1) * step < x <= m * step && x % step == 0
    ensures x == m * step
  {
    var q := x / step;
    DivMod(x, step);
    assert x == q * step;
    MulStrict(m - 1, q, step);
    MulStrict(q - 1, m, step);
  }

  /** Keeping every `step`-th of n points keeps ⌈n / step⌉ of them. */
  lemma {:induction false} KeepEveryCount(ps: seq<Point>, step: nat)
    requires step > 0
    ensures (|KeepEvery(ps, step)| - 1) * step < |ps| <= |KeepEvery(ps, step)| * step
  {
    if ps != [] {
      var n := |ps|;
      var m := |KeepEvery(ps[..n - 1], step)|;
      KeepEveryCount(ps[..n - 1], step);
      if (n - 1) % step == 0 {
        MultipleBetween(n - 1, m, step);
        assert (m + 1) * step == m * step + step;
      } else {
        ModMultiple(m, step);
      }
    }
  }

  /** Keeping every `step`-th point keeps exactly the points at the multiples of
      `step`, in order: point `j` of the result is point `j * step` of the input. */
  lemma {:induction false} KeepEveryAt(ps: seq<Point>, step: nat)
    requires step > 0
    ensures forall j :: 0 <= j < |KeepEvery(ps, step)| ==>
              j * step < |ps| && KeepEvery(ps, step)[j] == ps[j * step]
  {
    if ps != [] {
      var n := |ps|;
      var ps' := ps[..n - 1];
      var r' := KeepEvery(ps', step);
      var r := KeepEvery(ps, step);
      var m := |r'|;
      KeepEveryAt(ps', step);
      KeepEveryCount(ps', step);
      assert forall j :: 0 <= j < m ==> r[j] == r'[j];
      if (n - 1) % step == 0 {
        MultipleBetween(n - 1, m, step);
      }
    }
  }

  /** A series of more than 20 points keeps between 20 and 39 of them. */
  lemma DownSampleLength(ps: seq<Point>)
    requires |ps| > MaxPoints
    ensures MaxPoints <= |DownSample(ps)| < 2 * MaxPoints
  {
    var step := |ps| / MaxPoints;
    var k := |DownSample(ps)|;
    KeepEveryCount(ps, step);
    DivMod(|ps|, MaxPoints);
    assert MaxPoints * step <= |ps| < MaxPoints * step + MaxPoints;
    if k < MaxPoints {
      MulMono(k, MaxPoints - 1, step);
    }
    if k >= 2 * MaxPoints {
      MulMono(2 * MaxPoints - 1, k - 1, step);
    }
  }

  /** A series of at most 20 points is unchanged. A longer one keeps exactly the
      points at the multiples of step = ⌊n/20⌋ below n (point j is input point
      j * step, and no multiple below n is missed), in order, starting with the first;
      between 20 and 39 points remain. */
  lemma DownSampleShape(ps: seq<Point>)
    ensures |ps| <= MaxPoints ==> DownSample(ps) == ps
    ensures |ps| > MaxPoints ==>
      var step := |ps| / MaxPoints;
      var r := DownSample(ps);
      && MaxPoints <= |r| < 2 * MaxPoints
      && r[0] == ps[0]
      && (|r| - 1) * step < |ps| <= |r| * step
      && forall j :: 0 <= j < |r| ==> j * step < |ps| && r[j] == ps[j * step]
  {
    if |ps| > MaxPoints {
      DownSampleLength(ps);
      KeepEveryCount(ps, |ps| / MaxPoints);
      KeepEveryAt(ps, |ps| / MaxPoints);
    }
  }

  /** The last point survives down-sampling exactly when its index n - 1 is a multiple
      of the step; otherwise the chart ends before the final running total. */
  lemma DownSampleLast(ps: seq<Point>)
    requires |ps| > MaxPoints
    ensures var step := |ps| / MaxPoints;
      var r := DownSample(ps);
      ((|r| - 1) * step == |ps| - 1 <==> (|ps| - 1) % step == 0)
  {
    var step := |ps| / MaxPoints;
    var m := |DownSample(ps)| - 1;
    KeepEveryCount(ps, step);
    if (|ps| - 1) % step == 0 {
      var x := |ps| - 1;
      assert m * step <= x;
      assert x < (m + 1) * step by {
        assert (m + 1) * step == m * step + step;
      }
      DivMod(x, step);
      var q := x / step;
      assert x == q * step;
      MulStrict(q, m + 1, step);
      MulLe(m, q, step);
    }
    if m * step == |ps| - 1 {
      ModMultiple(m, step);
    }
  }

  /** Down-sampling keeps a strictly increasing series strictly increasing. */
  lemma DownSampleIncreasing(ps: seq<Point>)
    requires StrictlyIncreasing(ps)
    ensures StrictlyIncreasing(DownSample(ps))
  {
    if |ps| > MaxPoints {
      var step := |ps| / MaxPoints;
      var r := DownSample(ps);
      DownSampleShape(ps);
      forall i, j | 0 <= i < j < |r| ensures r[i].cumulativeXp < r[j].cumulativeXp {
        MulMono(i + 1, j, step);
        assert (i + 1) * step == i * step + step;
      }
    }
  }

  /** 47 points: step 2 keeps the 24 even indices 0, 2, ..., 46, the last one included.
      42 points: step 2 keeps 21 points and ends at index 40, dropping the last. */
  lemma DownSampleExamples(ps: seq<Point>)
    ensures |ps| == 47 ==> |DownSample(ps)| == 24 && DownSample(ps)[23] == ps[46]
    ensures |ps| == 42 ==> |DownSample(ps)| == 21 && DownSample(ps)[20] == ps[40]
  {
    if |ps| == 47 || |ps| == 42 {
      KeepEveryCount(ps, 2);
      KeepEveryAt(ps, 2);
    }
  }
}
