/**
 Conservation and order-independence of the Firecrawl merge.
 */
module FirecrawlBalance {
  import opened Options
  import opened FirstBest
  import opened LedgerStamps
  import opened LedgerPeriods
  import opened FirecrawlMerge
  import opened FirecrawlLaws
  import opened SetSums
  import ShardedRows

  // ---------------------------------------------------------------- calls are conserved

  lemma {:induction false} CountOfDistinct(attempts: seq<Attempt>, name: nat)
    requires DistinctAttempts(attempts)
    ensures Count(attempts, name) == |InPeriod(attempts, name)|
    decreases |attempts|
  {
    if attempts != [] {
      var n := |attempts| - 1;
      var most, a := attempts[..n], attempts[n];
      CountOfDistinct(most, name);
      assert attempts == most + [a];
      assert a !in most;
      if a.period == name { assert InPeriod(attempts, name) == InPeriod(most, name) + {a}; }
      else { assert InPeriod(attempts, name) == InPeriod(most, name); }
    }
  }

  lemma {:induction false} SizeAtMostCount(attempts: seq<Attempt>, name: nat)
    ensures |InPeriod(attempts, name)| <= Count(attempts, name)
    decreases |attempts|
  {
    if attempts != [] {
      var n := |attempts| - 1;
      var most, a := attempts[..n], attempts[n];
      SizeAtMostCount(most, name);
      assert attempts == most + [a];
      if a.period == name { assert InPeriod(attempts, name) == InPeriod(most, name) + {a}; }
      else { assert InPeriod(attempts, name) == InPeriod(most, name); }
    }
  }

  /** The calls all sources counted for a period. */
  function TotalCounted(ss: seq<Snapshot>, name: nat): nat {
    if ss == [] then 0 else Count(ss[0].attempts, name) + TotalCounted(ss[1..], name)
  }

  lemma {:induction false} SizeAtMostTotal(ss: seq<Snapshot>, name: nat)
    ensures |InPeriod(AllAttempts(ss), name)| <= TotalCounted(ss, name)
  {
    if ss != [] {
      var first, rest := InPeriod(ss[0].attempts, name), InPeriod(AllAttempts(ss[1..]), name);
      SizeAtMostTotal(ss[1..], name);
      SizeAtMostCount(ss[0].attempts, name);
      assert InPeriod(AllAttempts(ss), name) == first + rest;
      assert |first + rest| <= |first| + |rest|;
    }
  }

  /** Main result: every source attempt is in the merged ledger exactly once, and a period's reserved
      calls are at least every source's, at most their sum, and within the chosen ceiling. */
  lemma CallsAreConserved(ss: seq<Snapshot>, approved: Option<int>, out: Snapshot, p: Period)
    requires Mergeable(ss, approved) && IsMerge(ss, approved, out) && p in out.periods
    ensures forall s, a :: s in ss && a in s.attempts ==> a in out.attempts
    ensures forall i, j :: 0 <= i < j < |out.attempts| ==> out.attempts[i] != out.attempts[j]
    ensures p.reserved == |InPeriod(out.attempts, p.name)|
    ensures forall s, q :: s in ss && q in s.periods && q.name == p.name ==> q.reserved <= p.reserved
    ensures p.reserved <= TotalCounted(ss, p.name) && p.reserved <= p.limit
  {
    forall s, a | s in ss && a in s.attempts ensures a in out.attempts { AttemptFrom(ss, a); }
    SameInPeriod(out.attempts, AllAttempts(ss), p.name);
    forall s, q | s in ss && q in s.periods && q.name == p.name ensures q.reserved <= p.reserved {
      assert Valid(s);
      CountOfDistinct(s.attempts, p.name);
      SubsetSize(InPeriod(s.attempts, p.name), InPeriod(out.attempts, p.name));
    }
    SizeAtMostTotal(ss, p.name);
    MergedPeriodOk(ss, approved, p);
  }

  /** Main result: the merged back-off and next call are at least as late as every source's. */
  lemma StrictestStateWins(ss: seq<Snapshot>, approved: Option<int>, out: Snapshot, s: Snapshot)
    requires IsMerge(ss, approved, out) && s in ss
    ensures forall r :: r in s.rate ==> |out.rate| == 1 && Instant(out.rate[0].nextCall) >= Instant(r.nextCall)
    ensures forall q :: q in s.provider ==> |out.provider| == 1
    ensures forall q :: q in s.provider && q.blockedUntil.Some? && Instant(q.blockedUntil.value) > 0 ==>
      out.provider[0].blockedUntil.Some?
      && Instant(out.provider[0].blockedUntil.value) >= Instant(q.blockedUntil.value)
  {
    PickDominates(RateRank, Gather(RatesOf, ss));
    PickDominates(ProviderRank, Gather(ProvidersOf, ss));
    forall r | r in s.rate ensures r in Gather(RatesOf, ss) {
      assert r in RatesOf(s);
      GatherMembers(RatesOf, ss, r);
    }
    forall q | q in s.provider ensures q in Gather(ProvidersOf, ss) {
      assert q in ProvidersOf(s);
      GatherMembers(ProvidersOf, ss, q);
    }
  }

  /** Main result: reading the merged ledger back recomputes the same reconciliation flag, so the
      destination's verification cannot fail on it. */
  lemma FlagIsRecomputed(ss: seq<Snapshot>, approved: Option<int>, out: Snapshot)
    requires IsMerge(ss, approved, out) && forall s :: s in ss ==> Flagged(s)
    ensures Flagged(out)
  {
    if out.reconcile {
      var s :| s in ss && s.reconcile;
      var a :| a in s.attempts && NeedsReconciling(a);
      AttemptFrom(ss, a);
      assert a in out.attempts;
    }
    if exists a :: a in out.attempts && NeedsReconciling(a) {
      var a :| a in out.attempts && NeedsReconciling(a);
      AttemptFrom(ss, a);
      var s :| s in ss && a in s.attempts;
      assert Flagged(s) && s.reconcile;
    }
  }

  // ---------------------------------------------------------------- source order

  ghost predicate SameSources(ss: seq<Snapshot>, tt: seq<Snapshot>) { forall s :: s in ss <==> s in tt }

  lemma ReorderedRows(ss: seq<Snapshot>, tt: seq<Snapshot>)
    requires SameSources(ss, tt)
    ensures forall a :: a in AllAttempts(ss) <==> a in AllAttempts(tt)
    ensures forall p :: p in AllPeriods(ss) <==> p in AllPeriods(tt)
  {
    forall a ensures a in AllAttempts(ss) <==> a in AllAttempts(tt) {
      AttemptFrom(ss, a);
      AttemptFrom(tt, a);
    }
    forall p ensures p in AllPeriods(ss) <==> p in AllPeriods(tt) {
      PeriodFrom(ss, p);
      PeriodFrom(tt, p);
    }
  }

  lemma ReorderedGather<T(!new)>(rows: Snapshot -> seq<T>, ss: seq<Snapshot>, tt: seq<Snapshot>)
    requires SameSources(ss, tt)
    ensures forall r :: r in Gather(rows, ss) <==> r in Gather(rows, tt)
  {
    forall r ensures r in Gather(rows, ss) <==> r in Gather(rows, tt) {
      GatherMembers(rows, ss, r);
      GatherMembers(rows, tt, r);
    }
  }

  lemma ReorderedPick<T(!new)>(rank: T -> Rank, rows: Snapshot -> seq<T>, ss: seq<Snapshot>, tt: seq<Snapshot>)
    requires SameSources(ss, tt)
    ensures SameRank(rank, Pick(rank, Gather(rows, ss)), Pick(rank, Gather(rows, tt)))
  {
    ReorderedGather(rows, ss, tt);
    PickOfPermuted(rank, Gather(rows, ss), Gather(rows, tt));
  }

  ghost predicate SameRank<T>(rank: T -> Rank, a: Option<T>, b: Option<T>) {
    (a.Some? <==> b.Some?) && (a.Some? ==> rank(a.value) == rank(b.value))
  }

  /** Two rows that differ at most in how the same instants are written. */
  predicate SameButText(p: Period, q: Period) {
    && p.name == q.name && p.limit == q.limit && p.reserved == q.reserved
    && Instant(p.created) == Instant(q.created) && Instant(p.updated) == Instant(q.updated)
  }

  lemma ReorderedPeriod(ss: seq<Snapshot>, tt: seq<Snapshot>, approved: Option<int>, p: Period, q: Period)
    requires SameSources(ss, tt) && p.name == q.name
    requires MergedPeriod(ss, approved, p) && MergedPeriod(tt, approved, q)
    ensures SameButText(p, q)
  {
    ReorderedRows(ss, tt);
    SameInPeriod(AllAttempts(ss), AllAttempts(tt), p.name);
    LimitUnique(ss, approved, p.name);
    assert AllowsLimit(ss, approved, p.name, q.limit);
    ReorderedPick(Earlier, CreatedOf(p.name), ss, tt);
    ReorderedPick(Later, UpdatedOf(p.name), ss, tt);
  }

  /** The merges of the same ledgers in two orders. */
  ghost predicate SameButTies(a: Snapshot, b: Snapshot) {
    && a.attempts == b.attempts && a.reconcile == b.reconcile
    && (forall p :: p in a.periods ==> exists q :: q in b.periods && SameButText(p, q))
    && |a.provider| == |b.provider| <= 1 && |a.rate| == |b.rate| <= 1
    && (a.provider != [] ==> ProviderRank(a.provider[0]) == ProviderRank(b.provider[0]))
    && (a.rate != [] ==> RateRank(a.rate[0]) == RateRank(b.rate[0]))
  }

  lemma ReorderedCeiling(ss: seq<Snapshot>, tt: seq<Snapshot>, approved: Option<int>, name: nat)
    requires SameSources(ss, tt)
    ensures CeilingHolds(ss, approved, name) <==> CeilingHolds(tt, approved, name)
  {
    ReorderedRows(ss, tt);
    SameInPeriod(AllAttempts(ss), AllAttempts(tt), name);
    assert forall limit ::
      AllowsLimit(ss, approved, name, limit) <==> AllowsLimit(tt, approved, name, limit);
  }

  /** Main result: the order of the sources decides neither whether they merge nor what the merge
      holds, except which of several rows with equal timestamps is kept. */
  lemma SourceOrderIsIrrelevant(ss: seq<Snapshot>, tt: seq<Snapshot>, approved: Option<int>)
    requires SameSources(ss, tt)
    ensures Mergeable(ss, approved) <==> Mergeable(tt, approved)
    ensures forall a, b :: IsMerge(ss, approved, a) && IsMerge(tt, approved, b) ==> SameButTies(a, b)
  {
    ReorderedRows(ss, tt);
    assert Consistent(AllAttempts(ss)) <==> Consistent(AllAttempts(tt));
    forall name ensures CeilingHolds(ss, approved, name) <==> CeilingHolds(tt, approved, name) {
      ReorderedCeiling(ss, tt, approved, name);
    }
    forall a, b | IsMerge(ss, approved, a) && IsMerge(tt, approved, b) ensures SameButTies(a, b) {
      ReorderedMerge(ss, tt, approved, a, b);
    }
  }

  lemma ReorderedMerge(ss: seq<Snapshot>, tt: seq<Snapshot>, approved: Option<int>, a: Snapshot, b: Snapshot)
    requires SameSources(ss, tt) && IsMerge(ss, approved, a) && IsMerge(tt, approved, b)
    ensures SameButTies(a, b)
  {
    ReorderedRows(ss, tt);
    ShardedRows.SortedListUnique(a.attempts, b.attempts, IdOf);
    ReorderedPick(ProviderRank, ProvidersOf, ss, tt);
    ReorderedPick(RateRank, RatesOf, ss, tt);
    forall p | p in a.periods ensures exists q :: q in b.periods && SameButText(p, q) {
      var r :| r in AllPeriods(ss) && r.name == p.name;
      assert HasPeriod(b.periods, r.name);
      var q :| q in b.periods && q.name == r.name;
      ReorderedPeriod(ss, tt, approved, p, q);
    }
  }
}
