/** The reconciliation block of `fetchUserData` in docs/app.js: from the module's
    transactions and the XP transactions, guess the set of 31 transactions and the
    XP total (about 611000) that the school's own dashboard reports. */
module Reconcile {
  import opened Seqs
  import opened Sorting
  import opened Records

  /** The figures the school reports, hard-coded in the source. */
  const TargetCount: nat := 31
  const TargetXP: int := 611000
  /** How many of the largest XP transactions make up the "best XP match". */
  const TopCount: nat := 20

  /** What `updateUIWithExactMatch` is given: the transactions to chart and the
      `displayXP` and `displayCount` figures. */
  datatype Reconciled = Reconciled(transactions: seq<Transaction>, displayXP: int, displayCount: nat)

  /** Sort keys: `(a, b) => b.amount - a.amount` and
      `(a, b) => new Date(b.createdAt) - new Date(a.createdAt)` sort descending. */
  function NegAmount(t: Transaction): int
  {
    -t.amount
  }

  function NegCreatedAt(t: Transaction): int
  {
    -t.createdAt
  }

  /** The key `typeGroups[t.type]` files a record under; an absent type becomes the
      property name "undefined". */
  function TypeKey(t: Transaction): string
  {
    match t.kind
    case Some(k) => k
    case None => "undefined"
  }

  function OfType(k: string): Transaction -> bool
  {
    t => TypeKey(t) == k
  }

  /** `t.path.includes('/bh-module/') && !t.path.includes('/checkpoint/')` */
  predicate InModule(t: Transaction)
  {
    Contains(t.path, "/bh-module/") && !Contains(t.path, "/checkpoint/")
  }

  /** A record that may be added to the best XP match: a module record, not a
      checkpoint, filed under a type other than "xp". */
  predicate IsSupplementCandidate(t: Transaction)
  {
    TypeKey(t) != "xp" && InModule(t)
  }

  /** `bestXPMatch`: the 20 largest XP transactions. */
  function BestXPMatch(xp: seq<Transaction>): seq<Transaction>
  {
    Take(StableSort(xp, NegAmount), TopCount)
  }

  /** The keys of `typeGroups` in the order `Object.keys` lists them: first appearance. */
  function DistinctTypes(s: seq<Transaction>): seq<string>
  {
    if s == [] then []
    else
      var ks := DistinctTypes(s[..|s| - 1]);
      var k := TypeKey(s[|s| - 1]);
      if k in ks then ks else ks + [k]
  }

  /** What the second `forEach` pushes for the type `k`. */
  function GroupSupplements(all: seq<Transaction>, k: string): seq<Transaction>
  {
    if k != "xp" then Filter(Filter(all, OfType(k)), InModule) else []
  }

  /** The groups of the types `ks`, one after the other. */
  function Gather(all: seq<Transaction>, ks: seq<string>): seq<Transaction>
  {
    if ks == [] then [] else Gather(all, ks[..|ks| - 1]) + GroupSupplements(all, ks[|ks| - 1])
  }

  /** `additionalTransactions` before it is sorted. */
  function SupplementPool(all: seq<Transaction>): seq<Transaction>
  {
    Gather(all, DistinctTypes(all))
  }

  /** `selectedAdditional`: the 31 - 20 newest supplement candidates. */
  function SelectedAdditional(all: seq<Transaction>): seq<Transaction>
  {
    Take(StableSort(SupplementPool(all), NegCreatedAt), TargetCount - TopCount)
  }

  /** `finalTransactions` */
  function Combined(all: seq<Transaction>, xp: seq<Transaction>): seq<Transaction>
  {
    BestXPMatch(xp) + SelectedAdditional(all)
  }

  /** `recent31`: the 31 newest module records that are not checkpoints, of any type. */
  function Recent31(all: seq<Transaction>): seq<Transaction>
  {
    Take(StableSort(Filter(all, InModule), NegCreatedAt), TargetCount)
  }

  /** The XP carried by the records of type "xp" among `s`. */
  function XPSum(s: seq<Transaction>): int
  {
    SumAmounts(Filter(s, IsXP))
  }

  /** Whether the fallback to `recent31` is taken: only when the combined set does not
      have 31 records, and only when its XP is strictly closer to the target. */
  predicate UsesRecent31(all: seq<Transaction>, xp: seq<Transaction>)
  {
    |Combined(all, xp)| != TargetCount
    && Abs(XPSum(Recent31(all)) - TargetXP) < Abs(SumAmounts(BestXPMatch(xp)) - TargetXP)
  }

  // ---------------------------------------------------------------------------
  // The two `forEach` passes (docs/app.js:296-302 and 327-336)

  /** The first `forEach`: pushes each record onto the list of its type, creating
      the list (and so the key of `Object.keys`) on the type's first appearance. */
  method GroupByType(all: seq<Transaction>) returns (keys: seq<string>, typeGroups: map<string, seq<Transaction>>)
    ensures keys == DistinctTypes(all)
    ensures forall k :: k in typeGroups <==> k in keys
    ensures forall k :: k in typeGroups ==> typeGroups[k] == Filter(all, OfType(k))
  {
    keys := [];
    typeGroups := map[];
    for i := 0 to |all|
      invariant keys == DistinctTypes(all[..i])
      invariant forall k :: k in typeGroups <==> k in keys
      invariant forall k :: k in typeGroups ==> typeGroups[k] == Filter(all[..i], OfType(k))
    {
      var t := all[i];
      var k := TypeKey(t);
      assert all[..i + 1] == all[..i] + [t];
      if k !in typeGroups {
        DistinctTypesCover(all[..i]);
        FilterNone(all[..i], OfType(k));
        typeGroups := typeGroups[k := []];
        keys := keys + [k];
      }
      typeGroups := typeGroups[k := typeGroups[k] + [t]];
      forall k' | k' in typeGroups ensures typeGroups[k'] == Filter(all[..i + 1], OfType(k')) {
        FilterSnoc(all[..i], t, OfType(k'));
      }
    }
    assert all[..|all|] == all;
  }

  /** Builds `typeGroups`, then pushes, type by type, the module records of every
      type but "xp". */
  method AdditionalTransactions(all: seq<Transaction>) returns (additional: seq<Transaction>)
    ensures additional == SupplementPool(all)
    ensures multiset(additional) == multiset(Filter(all, IsSupplementCandidate))
  {
    var keys, typeGroups := GroupByType(all);
    additional := [];
    for j := 0 to |keys|
      invariant additional == Gather(all, keys[..j])
    {
      var k := keys[j];
      assert keys[..j + 1][..j] == keys[..j];
      assert Gather(all, keys[..j + 1]) == Gather(all, keys[..j]) + GroupSupplements(all, k);
      if k != "xp" {
        additional := additional + Filter(typeGroups[k], InModule);
      }
    }
    assert keys[..|keys|] == keys;
    SupplementPoolIsCandidates(all);
  }

  /** The rest of the block: sort, slice, sum and the choice between the two sets. */
  method ReconcileTransactions(all: seq<Transaction>, xp: seq<Transaction>) returns (r: Reconciled)
    ensures !UsesRecent31(all, xp) ==>
      r == Reconciled(Combined(all, xp), SumAmounts(BestXPMatch(xp)), |Combined(all, xp)|)
    ensures UsesRecent31(all, xp) ==>
      r == Reconciled(Recent31(all), XPSum(Recent31(all)), TargetCount)
    ensures r.displayCount <= TargetCount
    ensures Abs(r.displayXP - TargetXP) <= Abs(SumAmounts(BestXPMatch(xp)) - TargetXP)
    ensures r.displayCount == |r.transactions| || r.transactions == Recent31(all)
    ensures all == [] && xp == [] ==> r == Reconciled([], 0, 0)
  {
    var sortedXP := StableSort(xp, NegAmount);
    var bestXPMatch := Take(sortedXP, TopCount);
    var bestXPAmount := SumAmounts(bestXPMatch);

    var additional := AdditionalTransactions(all);
    var sortedAdditional := StableSort(additional, NegCreatedAt);
    var selectedAdditional := Take(sortedAdditional, TargetCount - TopCount);

    var finalTransactions := bestXPMatch + selectedAdditional;
    var finalXP := bestXPAmount;
    var finalCount := |finalTransactions|;
    CombinedCount(all, xp);

    if finalCount != TargetCount {
      var allModule := Filter(all, InModule);
      var recent31 := Take(StableSort(allModule, NegCreatedAt), TargetCount);
      var recent31XP := SumAmounts(Filter(recent31, IsXP));
      Recent31Selection(all);
      if Abs(recent31XP - TargetXP) < Abs(finalXP - TargetXP) {
        r := Reconciled(recent31, recent31XP, TargetCount);
      } else {
        r := Reconciled(finalTransactions, finalXP, finalCount);
      }
    } else {
      r := Reconciled(finalTransactions, finalXP, finalCount);
    }
    if all == [] && xp == [] {
      assert Filter(all, InModule) == [];
    }
  }

  // ---------------------------------------------------------------------------
  // Properties of the selections

  lemma {:induction false} DistinctTypesCover(s: seq<Transaction>)
    ensures forall i, j :: 0 <= i < j < |DistinctTypes(s)| ==> DistinctTypes(s)[i] != DistinctTypes(s)[j]
    ensures forall i :: 0 <= i < |s| ==> TypeKey(s[i]) in DistinctTypes(s)
    ensures forall k :: k in DistinctTypes(s) ==> exists i :: 0 <= i < |s| && TypeKey(s[i]) == k
  {
    if s != [] {
      var s' := s[..|s| - 1];
      DistinctTypesCover(s');
      forall k | k in DistinctTypes(s) ensures exists i :: 0 <= i < |s| && TypeKey(s[i]) == k {
        if k in DistinctTypes(s') {
          var i :| 0 <= i < |s'| && TypeKey(s'[i]) == k;
          assert s[i] == s'[i];
        } else {
          assert TypeKey(s[|s| - 1]) == k;
        }
      }
      forall i | 0 <= i < |s| ensures TypeKey(s[i]) in DistinctTypes(s) {
        if i < |s| - 1 {
          assert s[i] == s'[i];
        }
      }
    }
  }

  /** Gathering distinct types picks up each candidate of those types exactly as often
      as it occurs. */
  lemma {:induction false} GatherMultiset(all: seq<Transaction>, ks: seq<string>)
    requires forall i, j :: 0 <= i < j < |ks| ==> ks[i] != ks[j]
    ensures forall x :: multiset(Gather(all, ks))[x] ==
                        if IsSupplementCandidate(x) && TypeKey(x) in ks then multiset(all)[x] else 0
  {
    if ks != [] {
      var ks' := ks[..|ks| - 1];
      var k := ks[|ks| - 1];
      GatherMultiset(all, ks');
      FilterMultiset(all, OfType(k));
      FilterMultiset(Filter(all, OfType(k)), InModule);
      assert k !in ks';
      forall x ensures TypeKey(x) in ks <==> TypeKey(x) in ks' || TypeKey(x) == k {
        assert ks == ks' + [k];
      }
    }
  }

  /** The two `forEach` passes lose nothing and add nothing: `additionalTransactions`
      holds exactly the module, non-checkpoint records whose type is not "xp". */
  lemma SupplementPoolIsCandidates(all: seq<Transaction>)
    ensures multiset(SupplementPool(all)) == multiset(Filter(all, IsSupplementCandidate))
  {
    var ks := DistinctTypes(all);
    DistinctTypesCover(all);
    GatherMultiset(all, ks);
    FilterMultiset(all, IsSupplementCandidate);
    forall x ensures multiset(SupplementPool(all))[x] == multiset(Filter(all, IsSupplementCandidate))[x] {
      if x in all {
        var i :| 0 <= i < |all| && all[i] == x;
      } else {
        assert multiset(all)[x] == 0;
      }
    }
  }

  /** `bestXPMatch` holds min(20, n) of the XP transactions, and none of the
      transactions left out has a larger amount than one selected. */
  lemma BestXPMatchIsTop(xp: seq<Transaction>)
    ensures |BestXPMatch(xp)| == Min(TopCount, |xp|)
    ensures multiset(BestXPMatch(xp)) <= multiset(xp)
    ensures forall t, u :: t in BestXPMatch(xp) && u in multiset(xp) - multiset(BestXPMatch(xp)) ==>
      t.amount >= u.amount
    ensures forall i, j :: 0 <= i < j < |BestXPMatch(xp)| ==>
      BestXPMatch(xp)[i].amount >= BestXPMatch(xp)[j].amount
  {
    var best := BestXPMatch(xp);
    TakeSortedDrawn(xp, NegAmount, TopCount);
    TakeSortedFirst(xp, NegAmount, TopCount);
    forall t, u | t in best && u in multiset(xp) - multiset(best) ensures t.amount >= u.amount {
      assert NegAmount(t) <= NegAmount(u);
    }
    TakeSortedOrder(xp, NegAmount, TopCount);
    forall i, j | 0 <= i < j < |best| ensures best[i].amount >= best[j].amount {
      assert NegAmount(best[i]) <= NegAmount(best[j]);
    }
  }

  /** `selectedAdditional` holds min(11, n) of the n supplement candidates, newest
      first, and none left out is newer than one selected. */
  lemma SelectedAdditionalIsNewest(all: seq<Transaction>)
    ensures var sel := SelectedAdditional(all);
      && |sel| == Min(TargetCount - TopCount, |Filter(all, IsSupplementCandidate)|)
      && (forall t :: t in sel ==> IsSupplementCandidate(t))
      && (forall i, j :: 0 <= i < j < |sel| ==> sel[i].createdAt >= sel[j].createdAt)
      && multiset(sel) <= multiset(Filter(all, IsSupplementCandidate))
      && forall t, u :: t in sel && u in multiset(Filter(all, IsSupplementCandidate)) - multiset(sel) ==>
           t.createdAt >= u.createdAt
  {
    SupplementPoolIsCandidates(all);
    NewestDrawn(SupplementPool(all), Filter(all, IsSupplementCandidate), TargetCount - TopCount);
    NewestFirst(SupplementPool(all), Filter(all, IsSupplementCandidate), TargetCount - TopCount);
    FilterMembers(all, IsSupplementCandidate);
  }

  /** `finalCount` is min(20, |xp|) + min(11, candidates), never above 31. */
  lemma CombinedCount(all: seq<Transaction>, xp: seq<Transaction>)
    ensures |Combined(all, xp)| ==
      Min(TopCount, |xp|) + Min(TargetCount - TopCount, |Filter(all, IsSupplementCandidate)|)
    ensures |Combined(all, xp)| <= TargetCount
  {
    BestXPMatchIsTop(xp);
    SelectedAdditionalIsNewest(all);
  }

  /** `recent31` holds the min(31, n) newest of the n module, non-checkpoint records,
      newest first. */
  lemma Recent31Selection(all: seq<Transaction>)
    ensures var r := Recent31(all);
      && |r| == Min(TargetCount, |Filter(all, InModule)|)
      && (forall t :: t in r ==> InModule(t))
      && (forall i, j :: 0 <= i < j < |r| ==> r[i].createdAt >= r[j].createdAt)
      && multiset(r) <= multiset(all)
      && forall t, u :: t in r && u in multiset(Filter(all, InModule)) - multiset(r) ==>
           t.createdAt >= u.createdAt
  {
    var m := Filter(all, InModule);
    NewestDrawn(m, m, TargetCount);
    NewestFirst(m, m, TargetCount);
    FilterMultiset(all, InModule);
    FilterMembers(all, InModule);
  }

  /** The `n` newest of a pool that is a permutation of `cands`: how many, and that
      they come from `cands`. */
  lemma NewestDrawn(pool: seq<Transaction>, cands: seq<Transaction>, n: nat)
    requires multiset(pool) == multiset(cands)
    ensures var r := Take(StableSort(pool, NegCreatedAt), n);
      && |r| == Min(n, |cands|)
      && multiset(r) <= multiset(cands)
      && forall t :: t in r ==> t in cands
  {
    var r := Take(StableSort(pool, NegCreatedAt), n);
    assert |pool| == |cands| by {
      assert |multiset(pool)| == |multiset(cands)|;
    }
    TakeSortedDrawn(pool, NegCreatedAt, n);
    forall t | t in r ensures t in cands {
      assert t in multiset(r);
      assert t in multiset(cands);
    }
  }

  /** ... newest first, and none of `cands` left out is newer than one taken. */
  lemma NewestFirst(pool: seq<Transaction>, cands: seq<Transaction>, n: nat)
    requires multiset(pool) == multiset(cands)
    ensures var r := Take(StableSort(pool, NegCreatedAt), n);
      && (forall i, j :: 0 <= i < j < |r| ==> r[i].createdAt >= r[j].createdAt)
      && forall t, u :: t in r && u in multiset(cands) - multiset(r) ==> t.createdAt >= u.createdAt
  {
    var r := Take(StableSort(pool, NegCreatedAt), n);
    TakeSortedOrder(pool, NegCreatedAt, n);
    forall i, j | 0 <= i < j < |r| ensures r[i].createdAt >= r[j].createdAt {
      assert NegCreatedAt(r[i]) <= NegCreatedAt(r[j]);
    }
    TakeSortedFirst(pool, NegCreatedAt, n);
    forall t, u | t in r && u in multiset(cands) - multiset(r) ensures t.createdAt >= u.createdAt {
      assert NegCreatedAt(t) <= NegCreatedAt(u);
    }
  }

  /** The XP figure of the combined set is that of the top 20 alone: the supplements,
      whatever their amounts, never contribute. When the XP records carry their type,
      it is the XP carried by the combined set's "xp" records. */
  lemma CombinedXPFromBestOnly(all: seq<Transaction>, xp: seq<Transaction>)
    requires forall i :: 0 <= i < |xp| ==> IsXP(xp[i])
    ensures XPSum(Combined(all, xp)) == SumAmounts(BestXPMatch(xp))
  {
    var best := BestXPMatch(xp);
    var sel := SelectedAdditional(all);
    BestDrawnFromXP(xp);
    SelectedNotXP(all);
    forall i | 0 <= i < |best| ensures IsXP(best[i]) {
      var j :| 0 <= j < |xp| && xp[j] == best[i];
    }
    FilterAll(best, IsXP);
    FilterNone(sel, IsXP);
    FilterAppend(best, sel, IsXP);
    assert Combined(all, xp) == best + sel;
    assert Filter(best + sel, IsXP) == best + [];
    assert best + [] == best;
  }

  /** Every record of the top 20 comes from the XP query. */
  lemma BestDrawnFromXP(xp: seq<Transaction>)
    ensures forall i :: 0 <= i < |BestXPMatch(xp)| ==> BestXPMatch(xp)[i] in xp
  {
    var best := BestXPMatch(xp);
    TakeSortedDrawn(xp, NegAmount, TopCount);
    forall i | 0 <= i < |best| ensures best[i] in xp {
      assert best[i] in multiset(xp);
    }
  }

  /** No selected supplement is of type "xp". */
  lemma SelectedNotXP(all: seq<Transaction>)
    ensures forall i :: 0 <= i < |SelectedAdditional(all)| ==> !IsXP(SelectedAdditional(all)[i])
  {
    var sel := SelectedAdditional(all);
    SelectedAdditionalIsNewest(all);
    forall i | 0 <= i < |sel| ensures !IsXP(sel[i]) {
      assert sel[i] in sel;
    }
  }
}
