/** `updateUI` in app.js, less its drawing: the total XP over every transaction, the
    exact grade-1 and grade-0 counts over the progress records, the success rate and
    the day-by-day cumulative XP series, with no filtering and no down-sampling. */
module SimpleProfile {
  import opened Seqs
  import opened Sorting
  import opened Records
  import opened Series

  // ---------------------------------------------------------------------------
  // Total XP (app.js:336)

  /** `transaction ? transaction.reduce((sum, t) => sum + t.amount, 0) : 0` */
  function TotalXP(transaction: Option<seq<Transaction>>): int
  {
    SumAmounts(OrEmpty(transaction))
  }

  /** The total is additive over any split of the list, negative amounts included
      (nothing is clamped or skipped), and is 0 without a list. */
  lemma TotalXPAdditive(a: seq<Transaction>, b: seq<Transaction>)
    ensures TotalXP(Some(a + b)) == TotalXP(Some(a)) + TotalXP(Some(b))
    ensures TotalXP(None) == 0 && TotalXP(Some([])) == 0
  {
    SumByAppend(a, b, Amount);
  }

  // ---------------------------------------------------------------------------
  // Grades (app.js:339-347)

  /** `p.grade === 1` */
  predicate IsGradeOne(p: GradeRecord)
  {
    p.grade == Some(1.0)
  }

  /** `p.grade === 0` */
  predicate IsGradeZero(p: GradeRecord)
  {
    p.grade == Some(0.0)
  }

  function Passed(progress: seq<GradeRecord>): nat
  {
    |Filter(progress, IsGradeOne)|
  }

  function Failed(progress: seq<GradeRecord>): nat
  {
    |Filter(progress, IsGradeZero)|
  }

  /** Grades other than exactly 1 and exactly 0 are counted in neither, so the two
      counts cover the list exactly when every record is graded 1 or 0. */
  lemma {:induction false} GradeCountsBound(progress: seq<GradeRecord>)
    ensures Passed(progress) + Failed(progress) <= |progress|
    ensures Passed(progress) + Failed(progress) == |progress| <==>
      forall i :: 0 <= i < |progress| ==> IsGradeOne(progress[i]) || IsGradeZero(progress[i])
  {
    if progress != [] {
      var init := progress[..|progress| - 1];
      GradeCountsBound(init);
      if forall i :: 0 <= i < |progress| ==> IsGradeOne(progress[i]) || IsGradeZero(progress[i]) {
        assert forall i :: 0 <= i < |init| ==> init[i] == progress[i];
      } else {
        var k :| 0 <= k < |progress| && !(IsGradeOne(progress[k]) || IsGradeZero(progress[k]));
        if k < |init| {
          assert init[k] == progress[k];
        }
      }
    }
  }

  /** `((passed / progress.length) * 100)` before `toFixed(1)`: the denominator is the
      whole list, not `passed + failed`; 0 without progress records. */
  function SuccessRate(progress: Option<seq<GradeRecord>>): (rate: real)
    ensures OrEmpty(progress) == [] ==> rate == 0.0
    ensures OrEmpty(progress) != [] ==>
      rate * |OrEmpty(progress)| as real == 100.0 * Passed(OrEmpty(progress)) as real
    ensures 0.0 <= rate <= 100.0
  {
    var ps := OrEmpty(progress);
    if ps == [] then 0.0 else Percent(Passed(ps), |ps|)
  }

  // ---------------------------------------------------------------------------
  // The XP series (app.js:349-370)

  const MsPerDay: nat := 86400000

  /** The calendar day of a timestamp, which `new Date(t.createdAt).toLocaleDateString()`
      names and the comparator parses back. */
  function DayKey(createdAt: int): (day: int)
    ensures day * MsPerDay <= createdAt < (day + 1) * MsPerDay
  {
    createdAt / MsPerDay
  }

  /** `{ date, xp: t.amount, project: t.object ? t.object.name : 'Unknown' }` */
  function DayEntry(t: Transaction): Entry
  {
    Entry(DayKey(t.createdAt), t.amount, ProjectName(t))
  }

  function DayEntries(s: seq<Transaction>): (es: seq<Entry>)
    ensures |es| == |s| && forall i :: 0 <= i < |s| ==> es[i] == DayEntry(s[i])
  {
    seq(|s|, i requires 0 <= i < |s| => DayEntry(s[i]))
  }

  function EntryDate(e: Entry): int
  {
    e.date
  }

  /** `xpData`: the entries ordered by day, ties in their original order. */
  function DailyEntries(s: seq<Transaction>): seq<Entry>
  {
    StableSort(DayEntries(s), EntryDate)
  }

  /** The series `createXPChart` receives, or "No XP data" for an absent or empty list. */
  method BuildDailyChart(transaction: Option<seq<Transaction>>) returns (chart: XPChart)
    ensures chart == NoXPData <==> OrEmpty(transaction) == []
    ensures chart.Chart? ==> chart.points == Cumulative(DailyEntries(transaction.value))
    ensures chart.Chart? ==> |chart.points| == |transaction.value|
    ensures chart.Chart? ==> chart.points[|chart.points| - 1].cumulativeXp == TotalXP(transaction)
    ensures chart.Chart? ==> forall i, j :: 0 <= i < j < |chart.points| ==> chart.points[i].date <= chart.points[j].date
  {
    if transaction.Some? && |transaction.value| > 0 {
      var xpData := DailyEntries(transaction.value);
      var cumulativeXpData := Accumulate(xpData);
      DailySeriesFacts(transaction.value);
      chart := Chart(cumulativeXpData);
    } else {
      chart := NoXPData;
    }
  }

  /** One point per transaction; the entries are a permutation of the transactions'
      entries, sorted by day and stable within a day; each point carries its entry's
      day and the running total, which ends at the total XP. */
  lemma DailySeriesFacts(s: seq<Transaction>)
    ensures var es := DailyEntries(s);
      var ps := Cumulative(es);
      && multiset(es) == multiset(DayEntries(s))
      && (forall d :: Filter(es, HasKey(EntryDate, d)) == Filter(DayEntries(s), HasKey(EntryDate, d)))
      && |ps| == |s|
      && (forall i :: 0 <= i < |ps| ==> ps[i].date == es[i].date && ps[i].xp == es[i].xp)
      && (forall i, j :: 0 <= i < j < |ps| ==> ps[i].date <= ps[j].date)
      && (s != [] ==> ps[|ps| - 1].cumulativeXp == SumAmounts(s))
  {
    var es := DailyEntries(s);
    var ps := Cumulative(es);
    SortedPermutation(DayEntries(s), EntryDate);
    SortedOrder(DayEntries(s), EntryDate);
    forall d ensures Filter(es, HasKey(EntryDate, d)) == Filter(DayEntries(s), HasKey(EntryDate, d)) {
      SortedStable(DayEntries(s), EntryDate, d);
    }
    CumulativeIsPrefixSum(es);
    forall i, j | 0 <= i < j < |ps| ensures ps[i].date <= ps[j].date {
      assert EntryDate(es[i]) <= EntryDate(es[j]);
    }
    if s != [] {
      CumulativeLast(es);
      SortedSum(DayEntries(s), EntryDate, EntryXP);
      DayEntriesSum(s);
    }
  }

  lemma {:induction false} DayEntriesSum(s: seq<Transaction>)
    ensures SumBy(DayEntries(s), EntryXP) == SumAmounts(s)
  {
    if s != [] {
      DayEntriesSum(s[..|s| - 1]);
      assert DayEntries(s)[..|s| - 1] == DayEntries(s[..|s| - 1]);
    }
  }

  // ---------------------------------------------------------------------------
  // The page (app.js:320-386)

  datatype Page =
    | NoUserData
    | Stats(login: string, totalXP: int, passed: nat, failed: nat, successRate: real,
            xpChart: XPChart, progressDrawn: bool, transactionCount: nat, progressCount: nat)

  /** `updateUI`: an error without a user; otherwise the statistics and both charts.
      `progressDrawn` says whether `createProgressChart` is called, which happens
      exactly when there are progress records. */
  method UpdateUI(user: Option<seq<string>>, transaction: Option<seq<Transaction>>,
                  progress: Option<seq<GradeRecord>>)
    returns (page: Page)
    ensures page == NoUserData <==> OrEmpty(user) == []
    ensures page.Stats? ==>
      && page.login == user.value[0]
      && page.totalXP == TotalXP(transaction)
      && page.passed == Passed(OrEmpty(progress)) && page.failed == Failed(OrEmpty(progress))
      && page.passed + page.failed <= page.progressCount
      && page.successRate == SuccessRate(progress)
      && (page.progressDrawn <==> page.progressCount > 0)
      && page.transactionCount == |OrEmpty(transaction)| && page.progressCount == |OrEmpty(progress)|
      && (page.xpChart.Chart? <==> OrEmpty(transaction) != [])
      && (page.xpChart.Chart? ==>
            page.xpChart.points == Cumulative(DailyEntries(transaction.value))
            && |page.xpChart.points| == page.transactionCount > 0
            && page.xpChart.points[|page.xpChart.points| - 1].cumulativeXp == page.totalXP
            && forall i, j :: 0 <= i < j < |page.xpChart.points| ==>
                 page.xpChart.points[i].date <= page.xpChart.points[j].date)
  {
    if user.None? || |user.value| == 0 {
      return NoUserData;
    }
    var totalXP := TotalXP(transaction);
    var passed, failed := 0, 0;
    var successRate := 0.0;
    if progress.Some? && |progress.value| > 0 {
      passed := Passed(progress.value);
      failed := Failed(progress.value);
      successRate := SuccessRate(progress);
    }
    GradeCountsBound(OrEmpty(progress));
    var xpChart := BuildDailyChart(transaction);
    var progressDrawn := progress.Some? && |progress.value| > 0;
    page := Stats(user.value[0], totalXP, passed, failed, successRate, xpChart, progressDrawn,
                  |OrEmpty(transaction)|, |OrEmpty(progress)|);
  }
}
