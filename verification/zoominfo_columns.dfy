/**
 What the ZoomInfo merge decides and keeps, read off the columns of the rows themselves.
 */
module ZoomInfoColumns {
  import opened Options
  import opened FirstBest
  import opened LedgerStamps
  import opened LedgerPeriods
  import opened SetSums
  import opened ZoomInfoMerge
  import opened ZoomInfoLaws

  // ---------------------------------------------------------------- what a spend costs

  /** The `billed` column; a spend that was not billed cost nothing. */
  function Cost(x: Spend): nat {
    match x.billed
    case Some(n) => if n > 0 then n else 0
    case None => 0
  }

  /** What a spend costs one period. */
  function CostIn(name: nat): Spend -> nat { (x: Spend) => if name == x.period then Cost(x) else 0 }

  predicate SpendReconciles(x: Spend) {
    && x.id != 0 && x.requestKey != 0 && x.reserved >= 1 && x.started.Stamp?
    && ((x.state == Settled && x.billed.Some? && 0 <= x.billed.value && x.billed.value <= x.reserved)
        || (x.state == Released && (x.billed == None || x.billed == Some(0))))
  }

  lemma SpendsReconcile(x: Spend)
    ensures SpendOk(x) <==> SpendReconciles(x)
  {
    match x.state
    case Settled =>
    case Released =>
    case _ =>
  }

  /** Main result: a spend that validates is charged what its `billed` column says, to its own period only. */
  lemma ChargeIsCost(x: Spend, name: nat)
    requires SpendOk(x)
    ensures Charge(name)(x) == if x.period != name then 0 else if x.billed.Some? then x.billed.value else 0
    ensures Charge(name)(x) == CostIn(name)(x) && Billed(x) == Cost(x)
  {
    SpendsReconcile(x);
  }

  lemma {:induction false} SameCharges(spends: seq<Spend>, name: nat)
    requires forall x :: x in spends ==> SpendOk(x)
    ensures SeqSum(spends, Charge(name)) == SeqSum(spends, CostIn(name))
  {
    forall x | x in spends ensures Charge(name)(x) == CostIn(name)(x) { ChargeIsCost(x, name); }
    SumsAgree(spends, Charge(name), CostIn(name));
  }

  // ---------------------------------------------------------------- one ledger

  /** The balances of a source are what its own spends cost, and every column can be read. */
  ghost predicate Reconciles(s: Source) {
    && (forall i, j :: 0 <= i < j < |s.periods| ==> s.periods[i].name != s.periods[j].name)
    && (forall i, j :: 0 <= i < j < |s.spends| ==> s.spends[i].id != s.spends[j].id)
    && (forall i, j :: 0 <= i < j < |s.spends| ==> s.spends[i].requestKey != s.spends[j].requestKey)
    && (forall x :: x in s.spends ==> SpendReconciles(x) && exists p :: p in s.periods && p.name == x.period)
    && (forall p :: p in s.periods ==>
          0 <= p.limit && p.consumed <= p.limit && p.updated.Stamp?
          && p.consumed == SeqSum(s.spends, CostIn(p.name)))
  }

  lemma HasPeriodMeans(periods: seq<Period>, name: nat)
    ensures HasPeriod(periods, name) <==> exists p :: p in periods && p.name == name
  {
    forall p | p in periods ensures NameOf(p) == p.name {}
    if HasPeriod(periods, name) { var p :| p in periods && NameOf(p) == name; }
    if exists p :: p in periods && p.name == name {
      var p :| p in periods && p.name == name;
      assert NameOf(p) == name;
    }
  }

  lemma NamesReconcile(s: Source)
    ensures DistinctNames(s.periods, NameOf) <==>
      forall i, j :: 0 <= i < j < |s.periods| ==> s.periods[i].name != s.periods[j].name
  {
    forall i | 0 <= i < |s.periods| ensures NameOf(s.periods[i]) == s.periods[i].name {}
  }

  /** Validation accepts exactly the sources that reconcile, column by column. */
  lemma ValidReconciles(s: Source)
    ensures Valid(s) <==> Reconciles(s)
  {
    NamesReconcile(s);
    forall x ensures SpendOk(x) <==> SpendReconciles(x) { SpendsReconcile(x); }
    forall x | x in s.spends
      ensures HasPeriod(s.periods, x.period) <==> exists p :: p in s.periods && p.name == x.period
    {
      HasPeriodMeans(s.periods, x.period);
    }
    if forall x :: x in s.spends ==> SpendOk(x) {
      forall p | p in s.periods ensures SeqSum(s.spends, Charge(p.name)) == SeqSum(s.spends, CostIn(p.name)) {
        SameCharges(s.spends, p.name);
      }
    }
  }

  // ---------------------------------------------------------------- the balances

  /** The `billed` columns of the destination rows. */
  function BilledColumn(entries: seq<Entry>): nat
    decreases |entries|
  {
    if entries == [] then 0
    else BilledColumn(entries[..|entries| - 1]) + Cost(entries[|entries| - 1].spend)
  }

  function BilledColumnIn(entries: seq<Entry>, name: nat): nat
    decreases |entries|
  {
    if entries == [] then 0
    else
      var x := entries[|entries| - 1].spend;
      BilledColumnIn(entries[..|entries| - 1], name) + if x.period == name then Cost(x) else 0
  }

  lemma SpendsInLast(entries: seq<Entry>)
    requires entries != []
    ensures SpendsIn(entries)[..|entries| - 1] == SpendsIn(entries[..|entries| - 1])
  {
  }

  lemma {:induction false} ColumnsAreSums(entries: seq<Entry>, name: nat)
    requires forall e :: e in entries ==> Cost(e.spend) == Billed(e.spend)
    ensures BilledColumn(entries) == BilledTotal(entries)
    ensures BilledColumnIn(entries, name) == SeqSum(SpendsIn(entries), Charge(name))
    decreases |entries|
  {
    if entries != [] {
      var n := |entries| - 1;
      ColumnsAreSums(entries[..n], name);
      SpendsInLast(entries);
      assert Cost(entries[n].spend) == Billed(entries[n].spend);
    }
  }

  /** The key a destination row gets does not change what it cost. */
  lemma EntryCost(sources: seq<Source>, scoped: Scoped, e: Entry)
    requires (forall s :: s in sources ==> Valid(s)) && EntryOf(sources, scoped, e)
    ensures Cost(e.spend) == Billed(e.spend)
  {
    SpendFrom(sources, Restored(e));
    var s :| s in sources && Restored(e) in s.spends;
    ChargeIsCost(Restored(e), e.spend.period);
  }

  /** Main result: the consumed columns of the merged periods are the billed columns of the merged spends,
      in total and period by period. */
  lemma ConsumedIsBilledColumn(
    sources: seq<Source>, scoped: Scoped, periods: seq<Period>, entries: seq<Entry>, p: Period)
    requires Mergeable(sources, scoped) && IsMerge(sources, scoped, periods, entries) && p in periods
    ensures p.consumed == BilledColumnIn(entries, p.name)
    ensures ConsumedTotal(periods) == BilledColumn(entries)
  {
    forall e | e in entries ensures Cost(e.spend) == Billed(e.spend) { EntryCost(sources, scoped, e); }
    ColumnsAreSums(entries, p.name);
    ConsumedIsBilled(sources, scoped, periods, entries);
    MergedConsumed(sources, scoped, entries, p.name);
    assert MergedPeriod(sources, p);
  }

  /** The consumed columns a source has for a period: one row's, or none. */
  function ConsumedColumn(periods: seq<Period>, name: nat): int {
    if periods == [] then 0
    else (if periods[0].name == name then periods[0].consumed else 0) + ConsumedColumn(periods[1..], name)
  }

  function ConsumedColumns(sources: seq<Source>, name: nat): int {
    if sources == [] then 0 else ConsumedColumn(sources[0].periods, name) + ConsumedColumns(sources[1..], name)
  }

  lemma {:induction false} NoSuchRow(periods: seq<Period>, name: nat)
    requires forall q :: q in periods ==> q.name != name
    ensures ConsumedColumn(periods, name) == 0
  {
    if periods != [] { NoSuchRow(periods[1..], name); }
  }

  lemma {:induction false} OneSuchRow(periods: seq<Period>, i: nat)
    requires i < |periods| && forall j, k :: 0 <= j < k < |periods| ==> periods[j].name != periods[k].name
    ensures ConsumedColumn(periods, periods[i].name) == periods[i].consumed
  {
    if i == 0 {
      forall q | q in periods[1..] ensures q.name != periods[0].name {
        var k :| 0 <= k < |periods[1..]| && periods[1..][k] == q;
        assert periods[0].name != periods[k + 1].name;
      }
      NoSuchRow(periods[1..], periods[0].name);
    } else {
      OneSuchRow(periods[1..], i - 1);
    }
  }

  lemma {:induction false} NothingSpent(spends: seq<Spend>, name: nat)
    requires forall x :: x in spends ==> x.period != name
    ensures SeqSum(spends, Charge(name)) == 0
    decreases |spends|
  {
    if spends != [] { NothingSpent(spends[..|spends| - 1], name); }
  }

  lemma SourceCounts(s: Source, name: nat)
    requires Valid(s)
    ensures ConsumedColumn(s.periods, name) == SeqSum(s.spends, Charge(name))
  {
    NamesReconcile(s);
    HasPeriodMeans(s.periods, name);
    if HasPeriod(s.periods, name) {
      var p :| p in s.periods && p.name == name;
      var i :| 0 <= i < |s.periods| && s.periods[i] == p;
      OneSuchRow(s.periods, i);
    } else {
      forall x | x in s.spends ensures x.period != name { HasPeriodMeans(s.periods, x.period); }
      NothingSpent(s.spends, name);
      NoSuchRow(s.periods, name);
    }
  }

  lemma {:induction false} SourcesCount(sources: seq<Source>, name: nat)
    requires forall s :: s in sources ==> Valid(s)
    ensures ConsumedColumns(sources, name) == TotalCounted(sources, name)
  {
    if sources != [] {
      SourceCounts(sources[0], name);
      SourcesCount(sources[1..], name);
    }
  }

  /** Main result: a merged period has consumed at most the sum of the sources' consumed columns. */
  lemma ConsumedAtMostColumns(
    sources: seq<Source>, scoped: Scoped, periods: seq<Period>, entries: seq<Entry>, p: Period)
    requires Mergeable(sources, scoped) && IsMerge(sources, scoped, periods, entries) && p in periods
    ensures p.consumed <= ConsumedColumns(sources, p.name)
  {
    ConsumptionIsBounded(sources, scoped, periods, entries, p);
    SourcesCount(sources, p.name);
  }

  // ---------------------------------------------------------------- which sources merge

  /** A spend somewhere else bears the same request key. */
  ghost predicate Shared(sources: seq<Source>, x: Spend) {
    exists s, y :: s in sources && y in s.spends && y != x && y.requestKey == x.requestKey
  }

  /** The key a recorded spend is written under: its own, or one made for the first scope that has it. */
  ghost predicate WrittenUnder(sources: seq<Source>, scoped: Scoped, x: Spend, key: nat) {
    exists s :: s in sources && x in s.spends
      && (forall t :: t in sources && x in t.spends ==> s.scope <= t.scope)
      && key == if Shared(sources, x) then scoped(s.scope, x.id, x.requestKey) else x.requestKey
  }

  ghost predicate KeysApart(sources: seq<Source>, scoped: Scoped) {
    forall x, y, key | WrittenUnder(sources, scoped, x, key) && WrittenUnder(sources, scoped, y, key) :: x == y
  }

  lemma AloneIsUnshared(sources: seq<Source>, x: Spend)
    ensures Alone(AllSpends(sources), x) <==> !Shared(sources, x)
  {
    forall y ensures y in AllSpends(sources) <==> exists s :: s in sources && y in s.spends { SpendFrom(sources, y); }
  }

  lemma EntryIsWritten(sources: seq<Source>, scoped: Scoped, e: Entry)
    requires EntryOf(sources, scoped, e)
    ensures WrittenUnder(sources, scoped, Restored(e), e.spend.requestKey)
    ensures exists s :: s in sources && s.scope == e.scope && Restored(e) in s.spends
    ensures forall t :: t in sources && Restored(e) in t.spends ==> e.scope <= t.scope
  {
    AloneIsUnshared(sources, Restored(e));
    assert e.legacyKey == Restored(e).requestKey && e.spend.id == Restored(e).id;
  }

  lemma WrittenIsEntry(sources: seq<Source>, scoped: Scoped, x: Spend, key: nat) returns (e: Entry)
    requires WrittenUnder(sources, scoped, x, key)
    ensures EntryOf(sources, scoped, e) && Restored(e) == x && e.spend.requestKey == key
  {
    var s :| s in sources && x in s.spends
      && (forall t :: t in sources && x in t.spends ==> s.scope <= t.scope)
      && key == if Shared(sources, x) then scoped(s.scope, x.id, x.requestKey) else x.requestKey;
    AloneIsUnshared(sources, x);
    SpendFrom(sources, x);
    e := Entry(x.(requestKey := key), s.scope, x.requestKey);
    assert Restored(e) == x;
  }

  lemma KeysOnColumns(sources: seq<Source>, scoped: Scoped)
    ensures KeysDistinct(sources, scoped) <==> KeysApart(sources, scoped)
  {
    if KeysDistinct(sources, scoped) {
      forall x, y, key | WrittenUnder(sources, scoped, x, key) && WrittenUnder(sources, scoped, y, key) ensures x == y {
        var e := WrittenIsEntry(sources, scoped, x, key);
        var f := WrittenIsEntry(sources, scoped, y, key);
        assert e == f;
      }
    }
    if KeysApart(sources, scoped) {
      forall e, f | EntryOf(sources, scoped, e) && EntryOf(sources, scoped, f)
        && e.spend.requestKey == f.spend.requestKey
        ensures e == f
      {
        EntryIsWritten(sources, scoped, e);
        EntryIsWritten(sources, scoped, f);
        assert Restored(e) == Restored(f);
        EntryUnique(sources, scoped, e, f);
      }
    }
  }

  /** The distinct spends of all sources, each counted once in its period. */
  ghost function CostOfPeriod(sources: seq<Source>, name: nat): nat {
    SetSum(Members(AllSpends(sources)), CostIn(name))
  }

  ghost predicate OneStory(sources: seq<Source>) {
    forall s, t, x, y | s in sources && t in sources && x in s.spends && y in t.spends :: x.id == y.id ==> x == y
  }

  lemma {:induction false} SameSetSum(spends: set<Spend>, name: nat)
    requires forall x :: x in spends ==> SpendOk(x)
    ensures SetSum(spends, Charge(name)) == SetSum(spends, CostIn(name))
    decreases |spends|
  {
    if spends != {} {
      var x :| x in spends;
      SumWithout(spends, Charge(name), x);
      SumWithout(spends, CostIn(name), x);
      ChargeIsCost(x, name);
      SameSetSum(spends - {x}, name);
    }
  }

  lemma ConsumedIsCost(sources: seq<Source>, name: nat)
    requires forall s :: s in sources ==> Valid(s)
    ensures Consumed(sources, name) == CostOfPeriod(sources, name)
  {
    forall x | x in Members(AllSpends(sources)) ensures SpendOk(x) {
      SpendFrom(sources, x);
      var s :| s in sources && x in s.spends;
      assert Valid(s);
    }
    SameSetSum(Members(AllSpends(sources)), name);
  }

  lemma LimitOnColumns(sources: seq<Source>, s: Source, p: Period)
    requires (forall t :: t in sources ==> Valid(t)) && s in sources && p in s.periods
    ensures LimitHolds(sources, p.name) <==>
      CostOfPeriod(sources, p.name) <= p.limit
      && forall t, q :: t in sources && q in t.periods && q.name == p.name ==> q.limit == p.limit
  {
    ConsumedIsCost(sources, p.name);
    forall q ensures q in AllPeriods(sources) <==> exists t :: t in sources && q in PeriodsOf(t) {
      GatherMembers(PeriodsOf, sources, q);
    }
    assert p in PeriodsOf(s);
    if LimitHolds(sources, p.name) {
      var limit :| LimitOf(AllPeriods(sources), NameOf, CeilingOf, p.name, limit) && Consumed(sources, p.name) <= limit;
      assert CeilingOf(p) == limit;
      forall t, q | t in sources && q in t.periods && q.name == p.name ensures q.limit == p.limit {
        assert q in PeriodsOf(t);
        assert CeilingOf(q) == limit;
      }
    }
    if CostOfPeriod(sources, p.name) <= p.limit
       && forall t, q :: t in sources && q in t.periods && q.name == p.name ==> q.limit == p.limit {
      forall q | q in AllPeriods(sources) && NameOf(q) == p.name ensures CeilingOf(q) == p.limit {
        var t :| t in sources && q in PeriodsOf(t);
      }
      assert NameOf(p) == p.name;
      assert LimitOf(AllPeriods(sources), NameOf, CeilingOf, p.name, p.limit);
    }
  }

  /** The sources agree on every limit, and the distinct spends of a period keep to it. */
  ghost predicate LimitsCover(sources: seq<Source>) {
    forall s, p :: s in sources && p in s.periods ==>
      CostOfPeriod(sources, p.name) <= p.limit
      && forall t, q :: t in sources && q in t.periods && q.name == p.name ==> q.limit == p.limit
  }

  ghost predicate LimitsHold(sources: seq<Source>) {
    forall p :: p in AllPeriods(sources) ==> LimitHolds(sources, p.name)
  }

  lemma StoryOnColumns(sources: seq<Source>)
    ensures Consistent(AllSpends(sources)) <==> OneStory(sources)
  {
    forall x ensures x in AllSpends(sources) <==> exists s :: s in sources && x in s.spends { SpendFrom(sources, x); }
  }

  ghost predicate AllValid(sources: seq<Source>) { forall s :: s in sources ==> Valid(s) }

  ghost predicate AllReconcile(sources: seq<Source>) { forall s :: s in sources ==> Reconciles(s) }

  lemma AllOnColumns(sources: seq<Source>)
    ensures AllValid(sources) <==> AllReconcile(sources)
  {
    forall s | s in sources ensures Valid(s) <==> Reconciles(s) { ValidReconciles(s); }
  }

  lemma MergeableMeans(sources: seq<Source>, scoped: Scoped)
    ensures Mergeable(sources, scoped) <==>
      && sources != [] && ScopesOk(sources) && AllValid(sources)
      && Consistent(AllSpends(sources)) && KeysDistinct(sources, scoped) && LimitsHold(sources)
  {
  }

  /** Main result: sources merge exactly if there is one, their scopes are well formed and distinct, each
      reconciles, they tell one story of every spend, no two spends are written under one key, and the
      agreed limit of every period covers what its distinct spends cost. */
  lemma MergesExactlyWhen(sources: seq<Source>, scoped: Scoped)
    ensures Mergeable(sources, scoped) <==>
      && sources != []
      && (forall i :: 0 <= i < |sources| ==> sources[i].wellFormed)
      && (forall i, j :: 0 <= i < j < |sources| ==> sources[i].scope != sources[j].scope)
      && AllReconcile(sources) && OneStory(sources) && KeysApart(sources, scoped) && LimitsCover(sources)
  {
    MergeableMeans(sources, scoped);
    AllOnColumns(sources);
    KeysOnColumns(sources, scoped);
    StoryOnColumns(sources);
    if AllValid(sources) { LimitsOnColumns(sources); }
  }

  lemma LimitsOnColumns(sources: seq<Source>)
    requires forall t :: t in sources ==> Valid(t)
    ensures LimitsHold(sources) <==> LimitsCover(sources)
  {
    forall p ensures p in AllPeriods(sources) <==> exists s :: s in sources && p in PeriodsOf(s) {
      GatherMembers(PeriodsOf, sources, p);
    }
    forall s, p | s in sources && p in s.periods
      ensures LimitHolds(sources, p.name) <==>
        CostOfPeriod(sources, p.name) <= p.limit
        && forall t, q :: t in sources && q in t.periods && q.name == p.name ==> q.limit == p.limit
    {
      LimitOnColumns(sources, s, p);
    }
    if forall s, p :: s in sources && p in s.periods ==> LimitHolds(sources, p.name) {
      forall p | p in AllPeriods(sources) ensures LimitHolds(sources, p.name) {
        var s :| s in sources && p in PeriodsOf(s);
        assert p in s.periods;
      }
    }
    if forall p :: p in AllPeriods(sources) ==> LimitHolds(sources, p.name) {
      forall s, p | s in sources && p in s.periods ensures LimitHolds(sources, p.name) { assert p in PeriodsOf(s); }
    }
  }
}
