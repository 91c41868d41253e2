/**
 What the Firecrawl merge decides and keeps, read off the columns of the rows themselves: which
 ledgers reconcile, which of them merge, and which stamps and states win.
 */
module FirecrawlColumns {
  import opened Options
  import opened FirstBest
  import opened LedgerStamps
  import opened LedgerPeriods
  import opened FirecrawlMerge
  import opened FirecrawlLaws
  import opened FirecrawlBalance

  // ---------------------------------------------------------------- one ledger

  predicate Parses(s: Stamp) { s.Stamp? }

  /** The places in the attempt list that belong to a period. */
  ghost function PlacesIn(attempts: seq<Attempt>, name: nat): set<nat> {
    set i: nat | i < |attempts| && attempts[i].period == name
  }

  ghost predicate AttemptReconciles(a: Attempt, periods: seq<Period>) {
    && a.id != 0 && a.requestKey != 0 && (a.operation == Search || a.operation == Scrape)
    && (a.state == InFlight || a.state == Completed || a.state == Failed || a.state == Indeterminate
        || a.state == RateLimited)
    && a.number >= 1 && (a.hash == None || a.hash.value.wellFormed) && Parses(a.started)
    && exists p :: p in periods && p.name == a.period
  }

  /** The counters of a ledger agree with its own attempts, and every column can be read. */
  ghost predicate Reconciles(s: Snapshot) {
    && (forall i, j :: 0 <= i < j < |s.periods| ==> s.periods[i].name != s.periods[j].name)
    && (forall i, j :: 0 <= i < j < |s.attempts| ==> s.attempts[i].id != s.attempts[j].id)
    && (forall i, j :: 0 <= i < j < |s.attempts| ==> s.attempts[i].requestKey != s.attempts[j].requestKey)
    && (forall a :: a in s.attempts ==> AttemptReconciles(a, s.periods))
    && (forall p :: p in s.periods ==>
          p.limit >= 1 && p.reserved == |PlacesIn(s.attempts, p.name)| && p.reserved <= p.limit
          && Parses(p.created) && Parses(p.updated))
    && (s.provider == [] || (|s.provider| == 1 && s.provider[0].firecrawl && Parses(s.provider[0].updated)
                             && (s.provider[0].blockedUntil == None || Parses(s.provider[0].blockedUntil.value))))
    && (s.rate == [] || (|s.rate| == 1 && s.rate[0].singleton == 1 && Parses(s.rate[0].nextCall)
                         && Parses(s.rate[0].updated)))
  }

  lemma {:induction false} CountIsPlaces(attempts: seq<Attempt>, name: nat)
    ensures Count(attempts, name) == |PlacesIn(attempts, name)|
    decreases |attempts|
  {
    if attempts != [] {
      var n := |attempts| - 1;
      CountIsPlaces(attempts[..n], name);
      if attempts[n].period == name {
        assert PlacesIn(attempts, name) == PlacesIn(attempts[..n], name) + {n};
      } else {
        assert PlacesIn(attempts, name) == PlacesIn(attempts[..n], name);
      }
    } else {
      assert PlacesIn(attempts, name) == {};
    }
  }

  lemma AttemptsReconcile(s: Snapshot, a: Attempt)
    ensures AttemptReconciles(a, s.periods) <==> AttemptOk(a) && HasPeriod(s.periods, a.period)
  {
    forall p | p in s.periods ensures NameOf(p) == p.name {}
    if HasPeriod(s.periods, a.period) { var p :| p in s.periods && NameOf(p) == a.period; }
    if exists p :: p in s.periods && p.name == a.period {
      var p :| p in s.periods && p.name == a.period;
      assert NameOf(p) == a.period;
    }
    assert a.operation.UnknownOperation? <==> !(a.operation == Search || a.operation == Scrape);
  }

  lemma {:induction false} AtMostOneRow<T(!new)>(rows: seq<T>, ok: T -> bool)
    ensures |rows| <= 1 && (forall r :: r in rows ==> ok(r)) <==> rows == [] || (|rows| == 1 && ok(rows[0]))
  {
    if |rows| == 1 { assert rows == [rows[0]]; }
  }

  lemma StatesReconcile(s: Snapshot)
    ensures |s.provider| <= 1 && (forall q :: q in s.provider ==> ProviderOk(q)) <==>
      s.provider == [] || (|s.provider| == 1 && ProviderOk(s.provider[0]))
    ensures |s.rate| <= 1 && (forall r :: r in s.rate ==> RateOk(r)) <==>
      s.rate == [] || (|s.rate| == 1 && RateOk(s.rate[0]))
  {
    AtMostOneRow(s.provider, (q: Provider) => ProviderOk(q));
    AtMostOneRow(s.rate, (r: Rate) => RateOk(r));
  }

  lemma NamesReconcile(s: Snapshot)
    ensures DistinctNames(s.periods, NameOf) <==>
      forall i, j :: 0 <= i < j < |s.periods| ==> s.periods[i].name != s.periods[j].name
  {
    forall i | 0 <= i < |s.periods| ensures NameOf(s.periods[i]) == s.periods[i].name {}
  }

  lemma PeriodsReconcile(s: Snapshot, p: Period)
    ensures PeriodOk(p) && p.reserved == Count(s.attempts, p.name) <==>
      p.limit >= 1 && p.reserved == |PlacesIn(s.attempts, p.name)| && p.reserved <= p.limit
      && Parses(p.created) && Parses(p.updated)
  {
    CountIsPlaces(s.attempts, p.name);
  }

  /** Validation accepts exactly the ledgers that reconcile, column by column. */
  lemma ValidReconciles(s: Snapshot)
    ensures Valid(s) <==> Reconciles(s)
  {
    StatesReconcile(s);
    NamesReconcile(s);
    forall p | p in s.periods
      ensures PeriodOk(p) && p.reserved == Count(s.attempts, p.name) <==>
        p.limit >= 1 && p.reserved == |PlacesIn(s.attempts, p.name)| && p.reserved <= p.limit
        && Parses(p.created) && Parses(p.updated)
    {
      PeriodsReconcile(s, p);
    }
    forall a | a in s.attempts
      ensures AttemptReconciles(a, s.periods) <==> AttemptOk(a) && HasPeriod(s.periods, a.period)
    {
      AttemptsReconcile(s, a);
    }
  }

  // ---------------------------------------------------------------- which ledgers merge

  /** Two ledgers tell the same story of an attempt, and no request was made under two ids. */
  ghost predicate NoConflict(ss: seq<Snapshot>) {
    forall s, t, a, b | s in ss && t in ss && a in s.attempts && b in t.attempts ::
      (a.id == b.id ==> a == b) && (a.requestKey == b.requestKey ==> a.id == b.id)
  }

  /** The distinct attempts of a period, over all ledgers. */
  ghost function CallsIn(ss: seq<Snapshot>, name: nat): set<Attempt> {
    set a | a in AllAttempts(ss) && a.period == name
  }

  /** The ceiling of a period: the reviewed one, or else the one all ledgers agree on. */
  ghost predicate CeilingFor(ss: seq<Snapshot>, approved: Option<int>, p: Period, limit: int) {
    && limit >= 1 && |CallsIn(ss, p.name)| <= limit
    && match approved
       case Some(reviewed) => limit == reviewed
       case None => forall t, q :: t in ss && q in t.periods && q.name == p.name ==> q.limit == limit
  }

  lemma CeilingOnColumns(ss: seq<Snapshot>, approved: Option<int>, s: Snapshot, p: Period)
    requires s in ss && p in s.periods
    ensures CeilingHolds(ss, approved, p.name) <==> exists limit :: CeilingFor(ss, approved, p, limit)
  {
    PeriodFrom(ss, p);
    assert CallsIn(ss, p.name) == InPeriod(AllAttempts(ss), p.name);
    forall limit: int ensures
      (AllowsLimit(ss, approved, p.name, limit) && limit > 0 && |InPeriod(AllAttempts(ss), p.name)| <= limit)
      <==> CeilingFor(ss, approved, p, limit)
    {
      CeilingIs(ss, approved, p, limit);
    }
  }

  lemma CeilingIs(ss: seq<Snapshot>, approved: Option<int>, p: Period, limit: int)
    requires p in AllPeriods(ss)
    ensures (AllowsLimit(ss, approved, p.name, limit) && limit > 0 && |InPeriod(AllAttempts(ss), p.name)| <= limit)
      <==> CeilingFor(ss, approved, p, limit)
  {
    assert CallsIn(ss, p.name) == InPeriod(AllAttempts(ss), p.name);
    if approved.None? {
      forall q ensures q in AllPeriods(ss) <==> exists t :: t in ss && q in t.periods { PeriodFrom(ss, q); }
      assert HasPeriod(AllPeriods(ss), p.name);
      if CeilingFor(ss, approved, p, limit) {
        forall q | q in AllPeriods(ss) && q.name == p.name ensures q.limit == limit {
          var t :| t in ss && q in t.periods;
        }
      }
      if LimitOf(AllPeriods(ss), NameOf, CeilingOf, p.name, limit) {
        forall t, q | t in ss && q in t.periods && q.name == p.name ensures q.limit == limit {
          assert q in AllPeriods(ss) && CeilingOf(q) == limit;
        }
      }
    }
  }

  /** Main result: ledgers merge exactly if each reconciles, they tell one story, and every period has a
      positive ceiling that its distinct calls keep to. */
  lemma MergesExactlyWhen(ss: seq<Snapshot>, approved: Option<int>)
    ensures Mergeable(ss, approved) <==>
      && (forall s :: s in ss ==> Reconciles(s))
      && NoConflict(ss)
      && forall s, p :: s in ss && p in s.periods ==> exists limit :: CeilingFor(ss, approved, p, limit)
  {
    forall s | s in ss ensures Valid(s) <==> Reconciles(s) { ValidReconciles(s); }
    forall a ensures a in AllAttempts(ss) <==> exists s :: s in ss && a in s.attempts { AttemptFrom(ss, a); }
    forall p ensures p in AllPeriods(ss) <==> exists s :: s in ss && p in s.periods { PeriodFrom(ss, p); }
    forall s, p | s in ss && p in s.periods
      ensures CeilingHolds(ss, approved, p.name) <==> exists limit :: CeilingFor(ss, approved, p, limit)
    {
      CeilingOnColumns(ss, approved, s, p);
    }
  }

  // ---------------------------------------------------------------- what wins

  /** The instant a column names. */
  function Moment(s: Stamp): nat { if s.Stamp? then s.at else 0 }

  /** The instant of a back-off; a row without one is older than any. */
  function BlockedFrom(q: Provider): nat {
    if q.blockedUntil.Some? then Moment(q.blockedUntil.value) else 0
  }

  lemma ProviderKept(ss: seq<Snapshot>, approved: Option<int>, out: Snapshot, s: Snapshot, q: Provider)
    requires Mergeable(ss, approved) && IsMerge(ss, approved, out) && s in ss && q in s.provider
    ensures |out.provider| == 1
    ensures var kept := out.provider[0];
      && (exists t :: t in ss && kept in t.provider)
      && BlockedFrom(kept) >= BlockedFrom(q)
      && (BlockedFrom(kept) == BlockedFrom(q) ==> Moment(kept.updated) >= Moment(q.updated))
  {
    PickDominates(ProviderRank, Gather(ProvidersOf, ss));
    GatherMembers(ProvidersOf, ss, q);
    assert q in ProvidersOf(s);
    var kept := out.provider[0];
    GatherMembers(ProvidersOf, ss, kept);
    var t :| t in ss && kept in ProvidersOf(t);
    assert kept in t.provider;
    assert Valid(s) && Valid(t);
    assert ProviderOk(q) && ProviderOk(kept);
  }

  lemma RateKept(ss: seq<Snapshot>, approved: Option<int>, out: Snapshot, s: Snapshot, r: Rate)
    requires Mergeable(ss, approved) && IsMerge(ss, approved, out) && s in ss && r in s.rate
    ensures |out.rate| == 1
    ensures var kept := out.rate[0];
      && (exists t :: t in ss && kept in t.rate)
      && Moment(kept.nextCall) >= Moment(r.nextCall)
      && (Moment(kept.nextCall) == Moment(r.nextCall) ==> Moment(kept.updated) >= Moment(r.updated))
  {
    PickDominates(RateRank, Gather(RatesOf, ss));
    GatherMembers(RatesOf, ss, r);
    assert r in RatesOf(s);
    var kept := out.rate[0];
    GatherMembers(RatesOf, ss, kept);
    var t :| t in ss && kept in RatesOf(t);
    assert kept in t.rate;
    assert Valid(s) && Valid(t);
    assert RateOk(r) && RateOk(kept);
  }

  /** Main result: no back-off and no next call of any ledger is shortened by the merge, the rows kept are
      rows of the ledgers, and among those with the same back-off or next call it is a latest one. */
  lemma StateOnColumns(ss: seq<Snapshot>, approved: Option<int>, out: Snapshot)
    requires Mergeable(ss, approved) && IsMerge(ss, approved, out)
    ensures forall s, q | s in ss && q in s.provider && q.blockedUntil.Some? && Moment(q.blockedUntil.value) > 0 ::
      |out.provider| == 1 && out.provider[0].blockedUntil.Some?
      && Moment(out.provider[0].blockedUntil.value) >= Moment(q.blockedUntil.value)
    ensures forall s, q | s in ss && q in s.provider ::
      |out.provider| == 1
      && (BlockedFrom(out.provider[0]) == BlockedFrom(q) ==> Moment(out.provider[0].updated) >= Moment(q.updated))
    ensures forall s, r | s in ss && r in s.rate ::
      |out.rate| == 1 && Moment(out.rate[0].nextCall) >= Moment(r.nextCall)
      && (Moment(out.rate[0].nextCall) == Moment(r.nextCall) ==> Moment(out.rate[0].updated) >= Moment(r.updated))
    ensures (forall s :: s in ss ==> s.provider == []) ==> out.provider == []
    ensures (forall s :: s in ss ==> s.rate == []) ==> out.rate == []
    ensures out.reconcile <==> exists s :: s in ss && s.reconcile
  {
    forall s, q | s in ss && q in s.provider
      ensures |out.provider| == 1 && BlockedFrom(out.provider[0]) >= BlockedFrom(q)
      ensures BlockedFrom(out.provider[0]) == BlockedFrom(q) ==> Moment(out.provider[0].updated) >= Moment(q.updated)
    {
      ProviderKept(ss, approved, out, s, q);
      assert Valid(s) && ProviderOk(q);
    }
    forall s, r | s in ss && r in s.rate
      ensures |out.rate| == 1 && Moment(out.rate[0].nextCall) >= Moment(r.nextCall)
      ensures Moment(out.rate[0].nextCall) == Moment(r.nextCall) ==> Moment(out.rate[0].updated) >= Moment(r.updated)
    {
      RateKept(ss, approved, out, s, r);
    }
    NothingGathered(ss, out);
  }

  lemma NothingGathered(ss: seq<Snapshot>, out: Snapshot)
    requires MergedState(ss, out)
    ensures (forall s :: s in ss ==> s.provider == []) ==> out.provider == []
    ensures (forall s :: s in ss ==> s.rate == []) ==> out.rate == []
  {
    PickDominates(ProviderRank, Gather(ProvidersOf, ss));
    PickDominates(RateRank, Gather(RatesOf, ss));
    if out.provider != [] { GatherMembers(ProvidersOf, ss, out.provider[0]); }
    if out.rate != [] { GatherMembers(RatesOf, ss, out.rate[0]); }
  }

  /** A source row of the same period that bears this stamp. */
  ghost predicate Bears(ss: seq<Snapshot>, name: nat, stampOf: Period -> Stamp, stamp: Stamp) {
    exists s, q | s in ss && q in s.periods && q.name == name :: stampOf(q) == stamp
  }

  lemma {:induction false} NamedMembers(rows: seq<Period>, stampOf: Period -> Stamp, name: nat, stamp: Stamp)
    ensures stamp in StampsNamed(rows, NameOf, stampOf, name) <==>
      exists q :: q in rows && q.name == name && stampOf(q) == stamp
  {
    if rows != [] {
      NamedMembers(rows[1..], stampOf, name, stamp);
      assert forall q :: q in rows <==> q == rows[0] || q in rows[1..];
    }
  }

  lemma StampFrom(ss: seq<Snapshot>, stampOf: Period -> Stamp, name: nat, stamp: Stamp)
    ensures stamp in Gather(StampsOf(PeriodsOf, NameOf, stampOf, name), ss) <==> Bears(ss, name, stampOf, stamp)
  {
    var rows := StampsOf(PeriodsOf, NameOf, stampOf, name);
    GatherMembers(rows, ss, stamp);
    forall s | s in ss
      ensures stamp in rows(s) <==> exists q :: q in s.periods && q.name == name && stampOf(q) == stamp
    {
      StampsAt(s, PeriodsOf, s.periods, NameOf, stampOf, name);
      NamedMembers(s.periods, stampOf, name, stamp);
    }
  }

  /** Main result: a merged period carries the earliest creation and the latest update of its source rows,
      written as one of them wrote it, and counts the distinct calls of all ledgers. */
  lemma PeriodsOnColumns(ss: seq<Snapshot>, approved: Option<int>, out: Snapshot, p: Period)
    requires IsMerge(ss, approved, out) && p in out.periods
    ensures Bears(ss, p.name, (q: Period) => q.created, p.created)
    ensures Bears(ss, p.name, (q: Period) => q.updated, p.updated)
    ensures forall s, q | s in ss && q in s.periods && q.name == p.name ::
      Moment(p.created) <= Moment(q.created) && Moment(q.updated) <= Moment(p.updated)
    ensures p.reserved == |CallsIn(ss, p.name)|
    ensures approved.Some? ==> p.limit == approved.value
    ensures approved.None? ==> forall s, q | s in ss && q in s.periods && q.name == p.name :: q.limit == p.limit
  {
    assert MergedPeriod(ss, approved, p);
    assert CallsIn(ss, p.name) == InPeriod(AllAttempts(ss), p.name);
    CreationWins(ss, p);
    UpdateWins(ss, p);
    forall s, q | s in ss && q in s.periods && q.name == p.name ensures approved.None? ==> q.limit == p.limit {
      PeriodFrom(ss, q);
    }
  }

  lemma CreationWins(ss: seq<Snapshot>, p: Period)
    requires Pick(Earlier, Gather(CreatedOf(p.name), ss)) == Some(p.created)
    ensures Bears(ss, p.name, (q: Period) => q.created, p.created)
    ensures forall s, q | s in ss && q in s.periods && q.name == p.name :: Moment(p.created) <= Moment(q.created)
  {
    PickDominates(Earlier, Gather(CreatedOf(p.name), ss));
    StampFrom(ss, CreationOf, p.name, p.created);
    var s, q :| s in ss && q in s.periods && q.name == p.name && CreationOf(q) == p.created;
    forall s, q | s in ss && q in s.periods && q.name == p.name ensures Moment(p.created) <= Moment(q.created) {
      StampFrom(ss, CreationOf, p.name, q.created);
      assert CreationOf(q) == q.created;
    }
  }

  lemma UpdateWins(ss: seq<Snapshot>, p: Period)
    requires Pick(Later, Gather(UpdatedOf(p.name), ss)) == Some(p.updated)
    ensures Bears(ss, p.name, (q: Period) => q.updated, p.updated)
    ensures forall s, q | s in ss && q in s.periods && q.name == p.name :: Moment(q.updated) <= Moment(p.updated)
  {
    PickDominates(Later, Gather(UpdatedOf(p.name), ss));
    StampFrom(ss, UpdateOf, p.name, p.updated);
    var s, q :| s in ss && q in s.periods && q.name == p.name && UpdateOf(q) == p.updated;
    forall s, q | s in ss && q in s.periods && q.name == p.name ensures Moment(q.updated) <= Moment(p.updated) {
      StampFrom(ss, UpdateOf, p.name, q.updated);
      assert UpdateOf(q) == q.updated;
    }
  }

  /** An attempt whose outcome nobody knows: under way or lost, with no request hash to look it up by. */
  predicate Unresolved(a: Attempt) { (a.state == InFlight || a.state == Indeterminate) && a.hash == None }

  /** Main result: if every ledger's flag says whether it has an unresolved attempt, so does the merged one. */
  lemma FlagOnColumns(ss: seq<Snapshot>, approved: Option<int>, out: Snapshot)
    requires IsMerge(ss, approved, out)
    requires forall s :: s in ss ==> (s.reconcile <==> exists a :: a in s.attempts && Unresolved(a))
    ensures out.reconcile <==> exists a :: a in out.attempts && Unresolved(a)
  {
    forall a ensures Unresolved(a) <==> NeedsReconciling(a) {}
    forall s | s in ss ensures Flagged(s) {}
    FlagIsRecomputed(ss, approved, out);
  }
}
