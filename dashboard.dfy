/** `updateUIWithExactMatch` in docs/app.js, less its drawing: the pass/fail tally
    over the results, the success rate, the XP series handed to the chart and the
    choice between a chart and a "no data" placeholder. Also the part of
    `fetchUserData` that feeds it. */
module Dashboard {
  import opened Seqs
  import opened Sorting
  import opened Records
  import opened Series
  import opened Reconcile

  // ---------------------------------------------------------------------------
  // Pass/fail tally (docs/app.js:425-449)

  /** `r.grade !== null && r.grade !== undefined && !r.path.includes('checkpoint')
      && !r.path.includes('piscine') && r.path.includes('bh-module')` */
  predicate IsEligible(r: GradeRecord)
  {
    r.grade.Some?
    && !Contains(r.path, "checkpoint") && !Contains(r.path, "piscine")
    && Contains(r.path, "bh-module")
  }

  /** `r.grade >= 1.0` */
  predicate IsPass(r: GradeRecord)
  {
    r.grade.Some? && r.grade.value >= 1.0
  }

  predicate IsFail(r: GradeRecord)
  {
    !IsPass(r)
  }

  /** The `forEach` that counts `projectsPassed++` and `projectsFailed++`. */
  method TallyResults(result: Option<seq<GradeRecord>>) returns (passed: nat, failed: nat)
    ensures passed == |Filter(Filter(OrEmpty(result), IsEligible), IsPass)|
    ensures failed == |Filter(Filter(OrEmpty(result), IsEligible), IsFail)|
    ensures passed + failed == |Filter(OrEmpty(result), IsEligible)|
  {
    passed, failed := 0, 0;
    var validResults := Filter(OrEmpty(result), IsEligible);
    if result.Some? && |result.value| > 0 {
      FilterMembers(result.value, IsEligible);
      for i := 0 to |validResults|
        invariant passed == |Filter(validResults[..i], IsPass)|
        invariant failed == |Filter(validResults[..i], IsFail)|
      {
        var r := validResults[i];
        assert validResults[..i + 1][..i] == validResults[..i];
        assert r in validResults;
        if r.grade.value >= 1.0 {
          passed := passed + 1;
        } else {
          failed := failed + 1;
        }
      }
      assert validResults[..|validResults|] == validResults;
    }
    FilterPartition(validResults, IsPass, IsFail);
  }

  /** `totalProjects > 0 ? (projectsPassed / totalProjects) * 100 : 0`, before
      `toFixed(1)` rounds it. */
  function SuccessRate(passed: nat, failed: nat): (rate: real)
    ensures passed + failed == 0 ==> rate == 0.0
    ensures passed + failed > 0 ==> rate * (passed + failed) as real == 100.0 * passed as real
    ensures 0.0 <= rate <= 100.0
  {
    var total := passed + failed;
    if total > 0 then Percent(passed, total) else 0.0
  }

  /** What the progress chart area shows. */
  datatype ProgressChart = NoResults | PassFail(passed: nat, failed: nat)

  /** The chart is drawn only when some result was counted. */
  function ProgressChartFor(passed: nat, failed: nat): (c: ProgressChart)
    ensures c.PassFail? <==> passed + failed > 0
    ensures c.PassFail? ==> c == PassFail(passed, failed)
  {
    if passed > 0 || failed > 0 then PassFail(passed, failed) else NoResults
  }

  // ---------------------------------------------------------------------------
  // XP series (docs/app.js:451-491)

  /** `t.type === 'xp' && t.amount > 0` */
  predicate IsChartXP(t: Transaction)
  {
    IsXP(t) && t.amount > 0
  }

  /** `(a, b) => new Date(a.createdAt) - new Date(b.createdAt)` */
  function CreatedAt(t: Transaction): int
  {
    t.createdAt
  }

  function ToEntry(t: Transaction): Entry
  {
    Entry(t.createdAt, t.amount, ProjectName(t))
  }

  function Entries(s: seq<Transaction>): (es: seq<Entry>)
    ensures |es| == |s| && forall i :: 0 <= i < |s| ==> es[i] == ToEntry(s[i])
  {
    seq(|s|, i requires 0 <= i < |s| => ToEntry(s[i]))
  }

  /** The chart's transactions, oldest first. */
  function ChartTransactions(transactions: seq<Transaction>): seq<Transaction>
  {
    StableSort(Filter(transactions, IsChartXP), CreatedAt)
  }

  /** Builds the XP series: filter, sort by date, accumulate, and down-sample when
      there are more than 20 points; "No XP data" when no XP transaction is left. */
  method BuildXPChart(transactions: seq<Transaction>) returns (chart: XPChart)
    ensures chart == NoXPData <==> Filter(transactions, IsChartXP) == []
    ensures chart.Chart? ==> chart.points == DownSample(Cumulative(Entries(ChartTransactions(transactions))))
    ensures chart.Chart? ==> StrictlyIncreasing(chart.points) && 0 < |chart.points| < 2 * MaxPoints
    ensures chart.Chart? && |Filter(transactions, IsChartXP)| <= MaxPoints ==>
      chart.points[|chart.points| - 1].cumulativeXp == SumAmounts(Filter(transactions, IsChartXP))
  {
    var xpTransactions := Filter(transactions, IsChartXP);
    if |xpTransactions| > 0 {
      var sortedTransactions := StableSort(xpTransactions, CreatedAt);
      var cumulativeXpData := Accumulate(Entries(sortedTransactions));
      XPSeriesFacts(transactions);
      DownSampleIncreasing(cumulativeXpData);
      DownSampleShape(cumulativeXpData);
      if |cumulativeXpData| > MaxPoints {
        DownSampleLength(cumulativeXpData);
        var step := |cumulativeXpData| / MaxPoints;
        cumulativeXpData := KeepEvery(cumulativeXpData, step);
      }
      chart := Chart(cumulativeXpData);
    } else {
      chart := NoXPData;
    }
  }

  /** The series before down-sampling: one point per positive XP transaction, oldest
      first, ties in their original order, each carrying the running total up to and
      including it; the totals strictly increase and end at the sum of the amounts. */
  lemma XPSeriesFacts(transactions: seq<Transaction>)
    ensures var kept := Filter(transactions, IsChartXP);
      var sorted := ChartTransactions(transactions);
      var ps := Cumulative(Entries(sorted));
      && multiset(sorted) == multiset(kept)
      && (forall i, j :: 0 <= i < j < |sorted| ==> sorted[i].createdAt <= sorted[j].createdAt)
      && (forall k :: Filter(sorted, HasKey(CreatedAt, k)) == Filter(kept, HasKey(CreatedAt, k)))
      && |ps| == |kept|
      && StrictlyIncreasing(ps)
      && (kept != [] ==> ps[|ps| - 1].cumulativeXp == SumAmounts(kept))
  {
    var kept := Filter(transactions, IsChartXP);
    var sorted := ChartTransactions(transactions);
    var es := Entries(sorted);
    SortedPermutation(kept, CreatedAt);
    SortedOrder(kept, CreatedAt);
    forall k ensures Filter(sorted, HasKey(CreatedAt, k)) == Filter(kept, HasKey(CreatedAt, k)) {
      SortedStable(kept, CreatedAt, k);
    }
    FilterMembers(transactions, IsChartXP);
    forall i | 0 <= i < |es| ensures es[i].xp > 0 {
      assert sorted[i] in multiset(kept);
      assert sorted[i] in kept;
      assert IsChartXP(sorted[i]);
    }
    CumulativeIncreasing(es);
    if kept != [] {
      CumulativeLast(es);
      EntriesSum(sorted);
      SortedSum(kept, CreatedAt, Amount);
    }
  }

  lemma {:induction false} EntriesSum(s: seq<Transaction>)
    ensures SumBy(Entries(s), EntryXP) == SumAmounts(s)
  {
    if s != [] {
      EntriesSum(s[..|s| - 1]);
      assert Entries(s)[..|s| - 1] == Entries(s[..|s| - 1]);
    }
  }

  // ---------------------------------------------------------------------------
  // The page (docs/app.js:415-500)

  /** What the profile page shows once the data is in. */
  datatype View =
    | NoUser
    | Profile(login: string, displayXP: int, displayCount: nat,
              passed: nat, failed: nat, successRate: real,
              xpChart: XPChart, progressChart: ProgressChart)

  /** `updateUIWithExactMatch`: nothing but an error without a user; otherwise the
      tally, the XP chart and the progress chart. */
  method UpdateUIWithExactMatch(user: Option<seq<string>>, data: Reconciled, result: Option<seq<GradeRecord>>)
    returns (view: View)
    ensures view == NoUser <==> OrEmpty(user) == []
    ensures view.Profile? ==>
      && view.login == user.value[0]
      && view.displayXP == data.displayXP && view.displayCount == data.displayCount
      && view.passed + view.failed == |Filter(OrEmpty(result), IsEligible)|
      && view.passed == |Filter(Filter(OrEmpty(result), IsEligible), IsPass)|
      && view.failed == |Filter(Filter(OrEmpty(result), IsEligible), IsFail)|
      && view.successRate == SuccessRate(view.passed, view.failed)
      && view.progressChart == ProgressChartFor(view.passed, view.failed)
      && (view.progressChart.PassFail? <==> view.passed + view.failed > 0)
      && (view.xpChart == NoXPData <==> Filter(data.transactions, IsChartXP) == [])
      && (view.xpChart.Chart? ==>
            view.xpChart.points == DownSample(Cumulative(Entries(ChartTransactions(data.transactions))))
            && StrictlyIncreasing(view.xpChart.points))
  {
    if user.None? || |user.value| == 0 {
      return NoUser;
    }
    var passed, failed := TallyResults(result);
    var successRate := SuccessRate(passed, failed);
    var xpChart := BuildXPChart(data.transactions);
    var progressChart := ProgressChartFor(passed, failed);
    view := Profile(user.value[0], data.displayXP, data.displayCount, passed, failed, successRate, xpChart, progressChart);
  }

  // ---------------------------------------------------------------------------
  // The XP query's records carry no type (docs/app.js:189-207, 347, 452)

  /** The XP query asks only for records of type "xp" but does not select the `type`
      field; had it done so, each record would carry the type "xp". */
  function WithXPType(xp: seq<Transaction>): (r: seq<Transaction>)
    ensures |r| == |xp|
    ensures forall i :: 0 <= i < |r| ==> IsXP(r[i]) && r[i] == xp[i].(kind := Some("xp"))
  {
    seq(|xp|, i requires 0 <= i < |xp| => xp[i].(kind := Some("xp")))
  }

  /** As written: every record of the XP query arrives without a type, so in the
      combined branch the chart filter `t.type === 'xp'` finds none of the top 20
      and, the supplements being of other types, none at all: the chart shows
      "No XP data" while the figure shown is the top 20's XP total. */
  lemma UntypedCombinedSetChartsNothing(all: seq<Transaction>, xp: seq<Transaction>)
    requires forall i :: 0 <= i < |xp| ==> xp[i].kind == None
    ensures Filter(Combined(all, xp), IsChartXP) == []
  {
    var best := BestXPMatch(xp);
    var sel := SelectedAdditional(all);
    BestXPMatchIsTop(xp);
    SelectedAdditionalIsNewest(all);
    forall i | 0 <= i < |Combined(all, xp)| ensures !IsChartXP(Combined(all, xp)[i]) {
      var t := Combined(all, xp)[i];
      if i < |best| {
        assert t in multiset(xp);
      } else {
        assert t in sel;
      }
    }
    FilterNone(Combined(all, xp), IsChartXP);
  }

  /** An instance: one XP record of 100 from the XP query and no other transaction.
      The combined set is kept (its XP is nearer the target than the empty `recent31`),
      it shows 100 XP, and its chart has no point. */
  lemma UntypedCombinedSetExample()
    ensures var xp := [Transaction(100, 0, "/bh-module/project/", None, None)];
      && !UsesRecent31([], xp)
      && SumAmounts(BestXPMatch(xp)) == 100
      && Filter(Combined([], xp), IsChartXP) == []
  {
    var xp := [Transaction(100, 0, "/bh-module/project/", None, None)];
    BestXPMatchIsTop(xp);
    assert BestXPMatch(xp) == xp;
    assert SumAmounts(xp) == 100 by {
      assert xp[..0] == [];
    }
    assert Filter([], InModule) == [];
    assert Recent31([]) == [];
    assert XPSum(Recent31([])) == 0;
    UntypedCombinedSetChartsNothing([], xp);
  }

  /** Corrected: with the XP records typed, the combined set's chart holds exactly its
      top-20 records (all positive), so its running total ends at the XP figure shown. */
  lemma TypedCombinedSetChartsItsXP(all: seq<Transaction>, xp: seq<Transaction>)
    requires forall i :: 0 <= i < |xp| ==> xp[i].amount > 0
    ensures var typed := WithXPType(xp);
      SumAmounts(Filter(Combined(all, typed), IsChartXP)) == SumAmounts(BestXPMatch(typed))
  {
    var typed := WithXPType(xp);
    var c := Combined(all, typed);
    var best := BestXPMatch(typed);
    CombinedXPFromBestOnly(all, typed);
    BestDrawnFromXP(typed);
    SelectedNotXP(all);
    assert c == best + SelectedAdditional(all);
    forall i | 0 <= i < |c| && IsXP(c[i]) ensures c[i].amount > 0 {
      if i < |best| {
        assert c[i] == best[i];
        var j :| 0 <= j < |typed| && typed[j] == best[i];
      }
    }
    ChartFilterIsXPFilter(c);
  }

  lemma {:induction false} ChartFilterIsXPFilter(s: seq<Transaction>)
    requires forall i :: 0 <= i < |s| && IsXP(s[i]) ==> s[i].amount > 0
    ensures Filter(s, IsChartXP) == Filter(s, IsXP)
  {
    if s != [] {
      ChartFilterIsXPFilter(s[..|s| - 1]);
    }
  }

  /** `fetchUserData` from the three responses on, with the XP records typed: the
      reconciliation, then the page. Typing the records changes neither the branch
      taken nor the figures shown. */
  method FetchUserData(user: Option<seq<string>>, all: Option<seq<Transaction>>, xp: Option<seq<Transaction>>,
                       result: Option<seq<GradeRecord>>)
    returns (view: View)
    ensures view == NoUser <==> OrEmpty(user) == []
    ensures view.Profile? && !UsesRecent31(OrEmpty(all), OrEmpty(xp)) ==>
      view.displayXP == SumAmounts(BestXPMatch(OrEmpty(xp)))
      && view.displayCount == |Combined(OrEmpty(all), OrEmpty(xp))|
    ensures view.Profile? && UsesRecent31(OrEmpty(all), OrEmpty(xp)) ==>
      view.displayXP == XPSum(Recent31(OrEmpty(all))) && view.displayCount == TargetCount
    ensures view.Profile? ==> view.displayCount <= TargetCount
    ensures view.Profile? ==>
      && view.passed == |Filter(Filter(OrEmpty(result), IsEligible), IsPass)|
      && view.failed == |Filter(Filter(OrEmpty(result), IsEligible), IsFail)|
      && view.successRate == SuccessRate(view.passed, view.failed)
      && view.progressChart == ProgressChartFor(view.passed, view.failed)
    ensures view.Profile? ==>
      var shown := if UsesRecent31(OrEmpty(all), OrEmpty(xp)) then Recent31(OrEmpty(all))
                   else Combined(OrEmpty(all), WithXPType(OrEmpty(xp)));
      && (view.xpChart == NoXPData <==> Filter(shown, IsChartXP) == [])
      && (view.xpChart.Chart? ==> view.xpChart.points == DownSample(Cumulative(Entries(ChartTransactions(shown)))))
  {
    var allTransactions := OrEmpty(all);
    var xpTransactions := WithXPType(OrEmpty(xp));
    TypingKeepsChoice(allTransactions, OrEmpty(xp));
    assert |Combined(allTransactions, xpTransactions)| == |Combined(allTransactions, OrEmpty(xp))|;
    var data := ReconcileTransactions(allTransactions, xpTransactions);
    view := UpdateUIWithExactMatch(user, data, result);
  }

  /** Typing the XP records leaves the top 20 the same records, typed, so neither
      their sum nor the fallback decision changes. */
  lemma TypingKeepsChoice(all: seq<Transaction>, xp: seq<Transaction>)
    ensures BestXPMatch(WithXPType(xp)) == WithXPType(BestXPMatch(xp))
    ensures SumAmounts(BestXPMatch(WithXPType(xp))) == SumAmounts(BestXPMatch(xp))
    ensures UsesRecent31(all, WithXPType(xp)) == UsesRecent31(all, xp)
  {
    var sorted := StableSort(xp, NegAmount);
    SortTyped(xp);
    assert Take(WithXPType(sorted), TopCount) == WithXPType(Take(sorted, TopCount));
    TypedSum(BestXPMatch(xp));
  }

  lemma {:induction false} InsertTyped(x: Transaction, s: seq<Transaction>)
    ensures Insert(x.(kind := Some("xp")), WithXPType(s), NegAmount) == WithXPType(Insert(x, s, NegAmount))
  {
    if s != [] && NegAmount(x) > NegAmount(s[0]) {
      InsertTyped(x, s[1..]);
      assert WithXPType(s)[1..] == WithXPType(s[1..]);
      assert WithXPType(Insert(x, s, NegAmount)) == [s[0].(kind := Some("xp"))] + WithXPType(Insert(x, s[1..], NegAmount));
    }
  }

  /** Sorting by amount commutes with typing the records. */
  lemma {:induction false} SortTyped(s: seq<Transaction>)
    ensures StableSort(WithXPType(s), NegAmount) == WithXPType(StableSort(s, NegAmount))
  {
    if s != [] {
      SortTyped(s[1..]);
      assert WithXPType(s)[1..] == WithXPType(s[1..]);
      InsertTyped(s[0], StableSort(s[1..], NegAmount));
    }
  }

  lemma {:induction false} TypedSum(s: seq<Transaction>)
    ensures SumAmounts(WithXPType(s)) == SumAmounts(s)
  {
    if s != [] {
      TypedSum(s[..|s| - 1]);
      assert WithXPType(s)[..|s| - 1] == WithXPType(s[..|s| - 1]);
    }
  }
}
