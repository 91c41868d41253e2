/**
 What merging Firecrawl ledgers keeps: the merged ledger is valid and unique, merging in
 stages is merging at once, source order hardly matters, and calls are conserved.
 */
module FirecrawlLaws {
  import opened Options
  import opened FirstBest
  import opened LedgerStamps
  import opened LedgerPeriods
  import opened FirecrawlMerge
  import opened SetSums
  import ShardedRows

  // ---------------------------------------------------------------- membership

  lemma AttemptFrom(ss: seq<Snapshot>, a: Attempt)
    ensures a in AllAttempts(ss) <==> exists s :: s in ss && a in s.attempts
  {
    GatherMembers(AttemptsOf, ss, a);
    assert forall s :: AttemptsOf(s) == s.attempts;
  }

  lemma PeriodFrom(ss: seq<Snapshot>, p: Period)
    ensures p in AllPeriods(ss) <==> exists s :: s in ss && p in s.periods
  {
    GatherMembers(PeriodsOf, ss, p);
    assert forall s :: PeriodsOf(s) == s.periods;
  }

  // ---------------------------------------------------------------- the merged ledger is valid

  lemma {:induction false} CountIsSize(attempts: seq<Attempt>, name: nat)
    requires SortedById(attempts)
    ensures Count(attempts, name) == |InPeriod(attempts, name)|
    decreases |attempts|
  {
    if attempts != [] {
      var n := |attempts| - 1;
      assert attempts[..n + 1] == attempts;
      CountIsSize(attempts[..n], name);
      OneMoreInPeriod(attempts, n, name);
    }
  }

  lemma PickedStamp(ss: seq<Snapshot>, name: nat, stampOf: Period -> Stamp, rank: Stamp -> Rank, t: Stamp)
    requires forall s :: s in ss ==> forall p :: p in s.periods ==> stampOf(p).Stamp?
    requires Pick(rank, Gather(StampsOf(PeriodsOf, NameOf, stampOf, name), ss)) == Some(t)
    ensures t.Stamp?
  {
    var rows := StampsOf(PeriodsOf, NameOf, stampOf, name);
    PickDominates(rank, Gather(rows, ss));
    GatherMembers(rows, ss, t);
    var s :| s in ss && t in rows(s);
    StampsAt(s, PeriodsOf, s.periods, NameOf, stampOf, name);
    StampsFrom(s.periods, NameOf, stampOf, name, t);
  }

  lemma MergedPeriodOk(ss: seq<Snapshot>, approved: Option<int>, p: Period)
    requires Mergeable(ss, approved) && MergedPeriod(ss, approved, p)
    ensures PeriodOk(p)
  {
    var q :| q in AllPeriods(ss) && q.name == p.name;
    LimitUnique(ss, approved, p.name);
    PickedStamp(ss, p.name, CreationOf, Earlier, p.created);
    PickedStamp(ss, p.name, UpdateOf, Later, p.updated);
  }

  lemma MergedAttemptsOk(ss: seq<Snapshot>, approved: Option<int>, out: Snapshot)
    requires Mergeable(ss, approved) && IsMerge(ss, approved, out)
    ensures DistinctAttempts(out.attempts)
    ensures forall a :: a in out.attempts ==> AttemptOk(a) && HasPeriod(out.periods, a.period)
  {
    forall i, j | 0 <= i < j < |out.attempts|
      ensures out.attempts[i].id != out.attempts[j].id && out.attempts[i].requestKey != out.attempts[j].requestKey
    {
      assert out.attempts[i] in AllAttempts(ss) && out.attempts[j] in AllAttempts(ss);
    }
    forall a | a in out.attempts ensures AttemptOk(a) && HasPeriod(out.periods, a.period) {
      AttemptFrom(ss, a);
      var s :| s in ss && a in s.attempts;
      assert Valid(s);
      var p :| p in s.periods && p.name == a.period;
      PeriodFrom(ss, p);
    }
  }

  lemma MergedRowsOk(ss: seq<Snapshot>, approved: Option<int>, out: Snapshot)
    requires Mergeable(ss, approved) && IsMerge(ss, approved, out)
    ensures |out.provider| <= 1 && forall p :: p in out.provider ==> ProviderOk(p)
    ensures |out.rate| <= 1 && forall r :: r in out.rate ==> RateOk(r)
  {
    PickDominates(ProviderRank, Gather(ProvidersOf, ss));
    PickDominates(RateRank, Gather(RatesOf, ss));
    forall p | p in out.provider ensures ProviderOk(p) {
      GatherMembers(ProvidersOf, ss, p);
      var s :| s in ss && p in ProvidersOf(s);
      assert Valid(s);
    }
    forall r | r in out.rate ensures RateOk(r) {
      GatherMembers(RatesOf, ss, r);
      var s :| s in ss && r in RatesOf(s);
      assert Valid(s);
    }
  }

  /** Main result: the merge of valid ledgers is a valid ledger. */
  lemma MergedIsValid(ss: seq<Snapshot>, approved: Option<int>, out: Snapshot)
    requires Mergeable(ss, approved) && IsMerge(ss, approved, out)
    ensures Valid(out)
  {
    MergedAttemptsOk(ss, approved, out);
    MergedRowsOk(ss, approved, out);
    forall p | p in out.periods ensures PeriodOk(p) && p.reserved == Count(out.attempts, p.name) {
      MergedPeriodOk(ss, approved, p);
      CountIsSize(out.attempts, p.name);
      assert InPeriod(out.attempts, p.name) == InPeriod(AllAttempts(ss), p.name);
    }
  }

  // ---------------------------------------------------------------- there is only one merge

  lemma SameNamedRows(ss: seq<Snapshot>, approved: Option<int>, p: Period, q: Period)
    requires MergedPeriod(ss, approved, p) && MergedPeriod(ss, approved, q) && p.name == q.name
    ensures p == q
  {
    LimitUnique(ss, approved, p.name);
  }

  lemma SubsetOfPeriods(ss: seq<Snapshot>, approved: Option<int>, a: Snapshot, b: Snapshot, p: Period)
    requires IsMerge(ss, approved, a) && IsMerge(ss, approved, b) && p in a.periods
    ensures p in b.periods
  {
    var q :| q in AllPeriods(ss) && q.name == p.name;
    assert HasPeriod(b.periods, q.name);
    var r :| r in b.periods && r.name == q.name;
    SameNamedRows(ss, approved, p, r);
  }

  lemma MergeIsUnique(ss: seq<Snapshot>, approved: Option<int>, a: Snapshot, b: Snapshot)
    requires IsMerge(ss, approved, a) && IsMerge(ss, approved, b)
    ensures a == b
  {
    ShardedRows.SortedListUnique(a.attempts, b.attempts, IdOf);
    forall p ensures p in a.periods <==> p in b.periods {
      if p in a.periods { SubsetOfPeriods(ss, approved, a, b, p); }
      if p in b.periods { SubsetOfPeriods(ss, approved, b, a, p); }
    }
    ShardedRows.SortedListUnique(a.periods, b.periods, NameOf);
  }

  // ---------------------------------------------------------------- staging

  /** Every group was merged, with the same reviewed limit. */
  ghost predicate Stages(groups: seq<seq<Snapshot>>, approved: Option<int>, merged: seq<Snapshot>) {
    && |merged| == |groups|
    && forall i :: 0 <= i < |groups| ==> Mergeable(groups[i], approved) && IsMerge(groups[i], approved, merged[i])
  }

  lemma StagedMembers(groups: seq<seq<Snapshot>>, s: Snapshot)
    ensures s in Flatten(groups) <==> exists i :: 0 <= i < |groups| && s in groups[i]
  {
    FlattenMembers(groups, s);
  }

  lemma StagedAttempts(groups: seq<seq<Snapshot>>, approved: Option<int>, merged: seq<Snapshot>)
    requires Stages(groups, approved, merged)
    ensures forall a :: a in AllAttempts(merged) <==> a in AllAttempts(Flatten(groups))
  {
    forall a ensures a in AllAttempts(merged) <==> a in AllAttempts(Flatten(groups)) {
      AttemptFrom(merged, a);
      AttemptFrom(Flatten(groups), a);
      if a in AllAttempts(merged) {
        var m :| m in merged && a in m.attempts;
        var i :| 0 <= i < |merged| && merged[i] == m;
        AttemptFrom(groups[i], a);
        var s :| s in groups[i] && a in s.attempts;
        StagedMembers(groups, s);
      }
      if a in AllAttempts(Flatten(groups)) {
        var s :| s in Flatten(groups) && a in s.attempts;
        StagedMembers(groups, s);
        var i :| 0 <= i < |groups| && s in groups[i];
        AttemptFrom(groups[i], a);
        assert merged[i] in merged && a in merged[i].attempts;
      }
    }
  }

  /** The group a row of the flattened sources comes from. */
  lemma GroupOfRow(groups: seq<seq<Snapshot>>, p: Period) returns (i: nat)
    requires p in AllPeriods(Flatten(groups))
    ensures i < |groups| && p in AllPeriods(groups[i])
  {
    PeriodFrom(Flatten(groups), p);
    var s :| s in Flatten(groups) && p in s.periods;
    StagedMembers(groups, s);
    i :| 0 <= i < |groups| && s in groups[i];
    PeriodFrom(groups[i], p);
  }

  lemma RowOfGroup(groups: seq<seq<Snapshot>>, p: Period, i: nat)
    requires i < |groups| && p in AllPeriods(groups[i])
    ensures p in AllPeriods(Flatten(groups))
  {
    PeriodFrom(groups[i], p);
    var s :| s in groups[i] && p in s.periods;
    StagedMembers(groups, s);
    PeriodFrom(Flatten(groups), p);
  }

  /** A merged row, and the stage it comes from. */
  lemma StageOfRow(merged: seq<Snapshot>, p: Period) returns (i: nat)
    requires p in AllPeriods(merged)
    ensures i < |merged| && p in merged[i].periods
  {
    PeriodFrom(merged, p);
    var m :| m in merged && p in m.periods;
    i :| 0 <= i < |merged| && merged[i] == m;
  }

  /** A source row of a name has its merged row, under the same ceiling unless one was reviewed. */
  lemma MergedRowOf(ss: seq<Snapshot>, approved: Option<int>, out: Snapshot, q: Period) returns (p: Period)
    requires MergedPeriods(ss, approved, out.periods) && q in AllPeriods(ss)
    ensures p in out.periods && p.name == q.name && (approved.None? ==> p.limit == q.limit)
  {
    assert HasPeriod(out.periods, q.name);
    p :| p in out.periods && NameOf(p) == q.name;
    assert MergedPeriod(ss, approved, p);
  }

  /** A group's row of a name stands in the stage under the group's own ceiling. */
  lemma StageRow(groups: seq<seq<Snapshot>>, approved: Option<int>, merged: seq<Snapshot>, q: Period)
    returns (p: Period)
    requires Stages(groups, approved, merged) && q in AllPeriods(Flatten(groups))
    ensures p in AllPeriods(merged) && p.name == q.name && (approved.None? ==> p.limit == q.limit)
  {
    var i := GroupOfRow(groups, q);
    p := MergedRowOf(groups[i], approved, merged[i], q);
    assert merged[i] in merged;
    PeriodFrom(merged, p);
  }

  lemma SourceRow(groups: seq<seq<Snapshot>>, approved: Option<int>, merged: seq<Snapshot>, p: Period)
    returns (q: Period)
    requires Stages(groups, approved, merged) && p in AllPeriods(merged)
    ensures q in AllPeriods(Flatten(groups)) && q.name == p.name && (approved.None? ==> q.limit == p.limit)
  {
    var i := StageOfRow(merged, p);
    assert MergedPeriod(groups[i], approved, p);
    q :| q in AllPeriods(groups[i]) && q.name == p.name;
    RowOfGroup(groups, q, i);
  }

  lemma StagedNames(groups: seq<seq<Snapshot>>, approved: Option<int>, merged: seq<Snapshot>, name: nat)
    requires Stages(groups, approved, merged)
    ensures HasPeriod(AllPeriods(merged), name) <==> HasPeriod(AllPeriods(Flatten(groups)), name)
  {
    if HasPeriod(AllPeriods(merged), name) {
      var p :| p in AllPeriods(merged) && p.name == name;
      var q := SourceRow(groups, approved, merged, p);
    }
    if HasPeriod(AllPeriods(Flatten(groups)), name) {
      var q :| q in AllPeriods(Flatten(groups)) && q.name == name;
      var p := StageRow(groups, approved, merged, q);
    }
  }

  lemma StagedLimits(groups: seq<seq<Snapshot>>, approved: Option<int>, merged: seq<Snapshot>, name: nat, limit: int)
    requires Stages(groups, approved, merged)
    ensures AllowsLimit(merged, approved, name, limit) <==> AllowsLimit(Flatten(groups), approved, name, limit)
  {
    StagedNames(groups, approved, merged, name);
    if approved.None? && LimitOf(AllPeriods(merged), NameOf, CeilingOf, name, limit) {
      forall q | q in AllPeriods(Flatten(groups)) && q.name == name ensures q.limit == limit {
        var p := StageRow(groups, approved, merged, q);
      }
    }
    if approved.None? && LimitOf(AllPeriods(Flatten(groups)), NameOf, CeilingOf, name, limit) {
      forall p | p in AllPeriods(merged) && p.name == name ensures p.limit == limit {
        var q := SourceRow(groups, approved, merged, p);
      }
    }
  }

  /** A ledger has at most one row, and so at most one stamp, of a name. */
  lemma {:induction false} OneStamp(periods: seq<Period>, name: nat, stampOf: Period -> Stamp, p: Period)
    requires SortedByName(periods, NameOf) && p in periods && p.name == name
    ensures StampsNamed(periods, NameOf, stampOf, name) == [stampOf(p)]
  {
    if periods[0] == p {
      StampsExist(periods[1..], NameOf, stampOf, name);
      forall q | q in periods[1..] ensures NameOf(q) != name {
        var i :| 0 < i < |periods| && periods[i] == q;
        assert NameOf(periods[0]) < NameOf(periods[i]);
      }
    } else {
      var i :| 0 < i < |periods| && periods[i] == p;
      assert NameOf(periods[0]) < NameOf(periods[i]);
      assert p in periods[1..];
      OneStamp(periods[1..], name, stampOf, p);
    }
  }

  lemma StageStamp(
    ss: seq<Snapshot>, approved: Option<int>, out: Snapshot, name: nat, stampOf: Period -> Stamp, rank: Stamp -> Rank)
    requires IsMerge(ss, approved, out)
    requires forall p :: p in out.periods && p.name == name ==>
      Pick(rank, Gather(StampsOf(PeriodsOf, NameOf, stampOf, name), ss)) == Some(stampOf(p))
    ensures StampsNamed(out.periods, NameOf, stampOf, name)
      == AsSeq(Pick(rank, Gather(StampsOf(PeriodsOf, NameOf, stampOf, name), ss)))
  {
    if HasPeriod(out.periods, name) {
      var p :| p in out.periods && p.name == name;
      OneStamp(out.periods, name, stampOf, p);
    } else {
      StampsExist(out.periods, NameOf, stampOf, name);
      assert !HasPeriod(AllPeriods(ss), name);
      GatheredStamps(ss, PeriodsOf, NameOf, stampOf, name);
    }
  }

  lemma StageStamps(ss: seq<Snapshot>, approved: Option<int>, out: Snapshot, name: nat)
    requires IsMerge(ss, approved, out)
    ensures CreatedOf(name)(out) == AsSeq(Pick(Earlier, Gather(CreatedOf(name), ss)))
    ensures UpdatedOf(name)(out) == AsSeq(Pick(Later, Gather(UpdatedOf(name), ss)))
  {
    forall p | p in out.periods && p.name == name
      ensures Pick(Earlier, Gather(CreatedOf(name), ss)) == Some(p.created)
      ensures Pick(Later, Gather(UpdatedOf(name), ss)) == Some(p.updated)
    {
      assert MergedPeriod(ss, approved, p);
    }
    StageStamp(ss, approved, out, name, CreationOf, Earlier);
    StageStamp(ss, approved, out, name, UpdateOf, Later);
    StampsAt(out, PeriodsOf, out.periods, NameOf, CreationOf, name);
    StampsAt(out, PeriodsOf, out.periods, NameOf, UpdateOf, name);
  }

  lemma StagedStamps(groups: seq<seq<Snapshot>>, approved: Option<int>, merged: seq<Snapshot>, name: nat)
    requires Stages(groups, approved, merged)
    ensures Pick(Earlier, Gather(CreatedOf(name), merged)) == Pick(Earlier, Gather(CreatedOf(name), Flatten(groups)))
    ensures Pick(Later, Gather(UpdatedOf(name), merged)) == Pick(Later, Gather(UpdatedOf(name), Flatten(groups)))
  {
    forall i | 0 <= i < |groups|
      ensures CreatedOf(name)(merged[i]) == AsSeq(Pick(Earlier, Gather(CreatedOf(name), groups[i])))
      ensures UpdatedOf(name)(merged[i]) == AsSeq(Pick(Later, Gather(UpdatedOf(name), groups[i])))
    {
      StageStamps(groups[i], approved, merged[i], name);
    }
    PickStaged(Earlier, CreatedOf(name), groups, merged);
    PickStaged(Later, UpdatedOf(name), groups, merged);
  }

  lemma SameInPeriod(a: seq<Attempt>, b: seq<Attempt>, name: nat)
    requires forall x :: x in a <==> x in b
    ensures InPeriod(a, name) == InPeriod(b, name)
  {
  }

  lemma StagedPeriod(groups: seq<seq<Snapshot>>, approved: Option<int>, merged: seq<Snapshot>, p: Period)
    requires Stages(groups, approved, merged)
    ensures MergedPeriod(merged, approved, p) <==> MergedPeriod(Flatten(groups), approved, p)
  {
    StagedAttempts(groups, approved, merged);
    StagedNames(groups, approved, merged, p.name);
    StagedLimits(groups, approved, merged, p.name, p.limit);
    StagedStamps(groups, approved, merged, p.name);
    SameInPeriod(AllAttempts(merged), AllAttempts(Flatten(groups)), p.name);
  }

  lemma StagedCeiling(groups: seq<seq<Snapshot>>, approved: Option<int>, merged: seq<Snapshot>, name: nat)
    requires Stages(groups, approved, merged)
    ensures CeilingHolds(merged, approved, name) <==> CeilingHolds(Flatten(groups), approved, name)
  {
    StagedAttempts(groups, approved, merged);
    SameInPeriod(AllAttempts(merged), AllAttempts(Flatten(groups)), name);
    forall limit: int
      ensures AllowsLimit(merged, approved, name, limit) <==> AllowsLimit(Flatten(groups), approved, name, limit)
    {
      StagedLimits(groups, approved, merged, name, limit);
    }
  }

  lemma StagedFlag(groups: seq<seq<Snapshot>>, merged: seq<Snapshot>)
    requires |merged| == |groups|
    requires forall i :: 0 <= i < |groups| ==> (merged[i].reconcile <==> AnyFlag(groups[i]))
    ensures AnyFlag(merged) <==> AnyFlag(Flatten(groups))
  {
    if AnyFlag(merged) {
      var m :| m in merged && m.reconcile;
      var i :| 0 <= i < |merged| && merged[i] == m;
      var s :| s in groups[i] && s.reconcile;
      StagedMembers(groups, s);
    }
    if AnyFlag(Flatten(groups)) {
      var s :| s in Flatten(groups) && s.reconcile;
      StagedMembers(groups, s);
      var i :| 0 <= i < |groups| && s in groups[i];
      assert merged[i] in merged;
    }
  }

  lemma StagedState(groups: seq<seq<Snapshot>>, approved: Option<int>, merged: seq<Snapshot>, out: Snapshot)
    requires Stages(groups, approved, merged)
    ensures MergedState(merged, out) <==> MergedState(Flatten(groups), out)
  {
    forall i | 0 <= i < |groups|
      ensures merged[i].reconcile <==> AnyFlag(groups[i])
      ensures ProvidersOf(merged[i]) == AsSeq(Pick(ProviderRank, Gather(ProvidersOf, groups[i])))
      ensures RatesOf(merged[i]) == AsSeq(Pick(RateRank, Gather(RatesOf, groups[i])))
    {
      assert MergedState(groups[i], merged[i]);
    }
    StagedFlag(groups, merged);
    PickStaged(ProviderRank, ProvidersOf, groups, merged);
    PickStaged(RateRank, RatesOf, groups, merged);
  }

  lemma SameCoverage(a: seq<Period>, b: seq<Period>, periods: seq<Period>)
    requires forall name :: HasPeriod(a, name) <==> HasPeriod(b, name)
    ensures (forall p :: p in a ==> HasPeriod(periods, p.name)) <==> (forall p :: p in b ==> HasPeriod(periods, p.name))
  {
    assert forall p :: p in a ==> HasPeriod(a, p.name);
    assert forall p :: p in b ==> HasPeriod(b, p.name);
  }

  lemma SameRows(periods: seq<Period>, a: Period -> bool, b: Period -> bool)
    requires forall p :: p in periods ==> (a(p) <==> b(p))
    ensures (forall p :: p in periods ==> a(p)) <==> (forall p :: p in periods ==> b(p))
  {
  }

  lemma StagedPeriods(groups: seq<seq<Snapshot>>, approved: Option<int>, merged: seq<Snapshot>, periods: seq<Period>)
    requires Stages(groups, approved, merged)
    ensures MergedPeriods(merged, approved, periods) <==> MergedPeriods(Flatten(groups), approved, periods)
  {
    forall name ensures HasPeriod(AllPeriods(merged), name) <==> HasPeriod(AllPeriods(Flatten(groups)), name) {
      StagedNames(groups, approved, merged, name);
    }
    SameCoverage(AllPeriods(merged), AllPeriods(Flatten(groups)), periods);
    var a, b := FineRow(merged, approved), FineRow(Flatten(groups), approved);
    forall p | p in periods ensures a(p) <==> b(p) {
      StagedPeriod(groups, approved, merged, p);
    }
    SameRows(periods, a, b);
  }

  lemma StagedOutputs(groups: seq<seq<Snapshot>>, approved: Option<int>, merged: seq<Snapshot>, out: Snapshot)
    requires Stages(groups, approved, merged)
    ensures IsMerge(merged, approved, out) <==> IsMerge(Flatten(groups), approved, out)
  {
    StagedAttempts(groups, approved, merged);
    StagedPeriods(groups, approved, merged, out.periods);
    StagedState(groups, approved, merged, out);
  }

  lemma StagedMergeable(groups: seq<seq<Snapshot>>, approved: Option<int>, merged: seq<Snapshot>)
    requires Stages(groups, approved, merged)
    ensures Mergeable(merged, approved) <==> Mergeable(Flatten(groups), approved)
  {
    StagedAttempts(groups, approved, merged);
    assert Consistent(AllAttempts(merged)) <==> Consistent(AllAttempts(Flatten(groups)));
    forall m | m in merged ensures Valid(m) {
      var i :| 0 <= i < |merged| && merged[i] == m;
      MergedIsValid(groups[i], approved, merged[i]);
    }
    forall s | s in Flatten(groups) ensures Valid(s) {
      StagedMembers(groups, s);
    }
    StagedCeilings(groups, approved, merged);
  }

  lemma StagedCeilings(groups: seq<seq<Snapshot>>, approved: Option<int>, merged: seq<Snapshot>)
    requires Stages(groups, approved, merged)
    ensures (forall p :: p in AllPeriods(merged) ==> CeilingHolds(merged, approved, p.name))
      <==> (forall p :: p in AllPeriods(Flatten(groups)) ==> CeilingHolds(Flatten(groups), approved, p.name))
  {
    forall name
      ensures HasPeriod(AllPeriods(merged), name) <==> HasPeriod(AllPeriods(Flatten(groups)), name)
      ensures CeilingHolds(merged, approved, name) <==> CeilingHolds(Flatten(groups), approved, name)
    {
      StagedNames(groups, approved, merged, name);
      StagedCeiling(groups, approved, merged, name);
    }
    assert forall p :: p in AllPeriods(merged) ==> HasPeriod(AllPeriods(merged), p.name);
    assert forall p :: p in AllPeriods(Flatten(groups)) ==> HasPeriod(AllPeriods(Flatten(groups)), p.name);
  }

  /** Whatever merges at once also merges group by group. */
  lemma GroupMergeable(groups: seq<seq<Snapshot>>, approved: Option<int>, i: nat)
    requires Mergeable(Flatten(groups), approved) && i < |groups|
    ensures Mergeable(groups[i], approved)
  {
    var group, all := groups[i], Flatten(groups);
    forall s | s in group ensures s in all && Valid(s) { StagedMembers(groups, s); }
    forall a | a in AllAttempts(group) ensures a in AllAttempts(all) {
      AttemptFrom(group, a);
      AttemptFrom(all, a);
    }
    forall p | p in AllPeriods(group) ensures CeilingHolds(group, approved, p.name) {
      RowOfGroup(groups, p, i);
      var limit :|
        AllowsLimit(all, approved, p.name, limit) && limit > 0 && |InPeriod(AllAttempts(all), p.name)| <= limit;
      forall q | q in AllPeriods(group) ensures q in AllPeriods(all) { RowOfGroup(groups, q, i); }
      assert AllowsLimit(group, approved, p.name, limit);
      SubsetSize(InPeriod(AllAttempts(group), p.name), InPeriod(AllAttempts(all), p.name));
    }
  }

  /** Main result: merging contiguous groups first and then their merges fails exactly when merging all
      ledgers at once fails, and gives the same ledger when it does not. */
  lemma MergingInStages(groups: seq<seq<Snapshot>>, approved: Option<int>, merged: seq<Snapshot>, out: Snapshot)
    requires |merged| == |groups|
    requires forall i :: 0 <= i < |groups| && Mergeable(groups[i], approved) ==> IsMerge(groups[i], approved, merged[i])
    ensures Mergeable(Flatten(groups), approved)
      <==> (forall i :: 0 <= i < |groups| ==> Mergeable(groups[i], approved)) && Mergeable(merged, approved)
    ensures Mergeable(Flatten(groups), approved) ==>
      (IsMerge(merged, approved, out) <==> IsMerge(Flatten(groups), approved, out))
  {
    if Mergeable(Flatten(groups), approved) {
      forall i | 0 <= i < |groups| ensures Mergeable(groups[i], approved) {
        GroupMergeable(groups, approved, i);
      }
    }
    if forall i :: 0 <= i < |groups| ==> Mergeable(groups[i], approved) {
      StagedMergeable(groups, approved, merged);
      StagedOutputs(groups, approved, merged, out);
    }
  }

  /** Main result: merging a merged ledger again, under the same limit, changes nothing. */
  lemma MergingAgainIsIdentity(ss: seq<Snapshot>, approved: Option<int>, out: Snapshot, again: Snapshot)
    requires Mergeable(ss, approved) && IsMerge(ss, approved, out)
    ensures Mergeable([out], approved)
    ensures IsMerge([out], approved, again) <==> again == out
  {
    assert Flatten([ss]) == ss + Flatten([]) == ss;
    MergingInStages([ss], approved, [out], again);
    StagedOutputs([ss], approved, [out], out);
    if IsMerge([out], approved, again) { MergeIsUnique([out], approved, again, out); }
  }
}
