/**
 What merging ZoomInfo ledgers keeps: no spend is lost or counted twice, keys stay unique, the
 balances add up, and the order of the sources does not matter.
 */
module ZoomInfoLaws {
  import opened FirstBest
  import opened LedgerStamps
  import opened LedgerPeriods
  import opened SetSums
  import opened ZoomInfoMerge
  import ShardedRows
  import StableSort

  ghost predicate Recorded(sources: seq<Source>, x: Spend) { exists s :: s in sources && x in s.spends }

  ghost predicate Kept(entries: seq<Entry>, x: Spend) { exists e :: e in entries && Restored(e) == x }

  lemma KeptIsRecorded(sources: seq<Source>, scoped: Scoped, entries: seq<Entry>, x: Spend)
    requires MergedEntries(sources, scoped, entries)
    ensures Recorded(sources, x) <==> Kept(entries, x)
  {
    SpendFrom(sources, x);
    if Kept(entries, x) {
      var e :| e in entries && Restored(e) == x;
      assert EntryOf(sources, scoped, e);
    }
  }

  /** Main result: restoring the original keys in the merged spends gives exactly the union of the
      sources' spends, each once, and the merged request keys are unique. */
  lemma MergeIsLossless(sources: seq<Source>, scoped: Scoped, entries: seq<Entry>)
    requires KeysDistinct(sources, scoped) && MergedEntries(sources, scoped, entries)
    ensures forall x :: Recorded(sources, x) <==> Kept(entries, x)
    ensures forall i, j :: 0 <= i < j < |entries| ==>
      Restored(entries[i]) != Restored(entries[j]) && entries[i].spend.requestKey != entries[j].spend.requestKey
  {
    forall x ensures Recorded(sources, x) <==> Kept(entries, x) { KeptIsRecorded(sources, scoped, entries, x); }
    forall i, j | 0 <= i < j < |entries|
      ensures Restored(entries[i]) != Restored(entries[j])
      ensures entries[i].spend.requestKey != entries[j].spend.requestKey
    {
      assert EntryOf(sources, scoped, entries[i]) && EntryOf(sources, scoped, entries[j]);
      assert Restored(entries[i]).id != Restored(entries[j]).id;
    }
  }

  /** A digest that never collides, with itself or with an original key, never causes a refusal. */
  lemma CollisionFreeKeysSuffice(sources: seq<Source>, scoped: Scoped)
    requires Consistent(AllSpends(sources))
    requires forall a, b, c, d, e, f {:trigger scoped(a, b, c), scoped(d, e, f)} ::
      scoped(a, b, c) == scoped(d, e, f) ==> a == d && b == e && c == f
    requires forall a, b, c, x | x in AllSpends(sources) :: scoped(a, b, c) != x.requestKey
    ensures KeysDistinct(sources, scoped)
  {
    forall e, f | EntryOf(sources, scoped, e) && EntryOf(sources, scoped, f) && e.spend.requestKey == f.spend.requestKey
      ensures e == f
    {
      var x, y := Restored(e), Restored(f);
      assert x.requestKey == e.legacyKey && y.requestKey == f.legacyKey;
      assert x.id == e.spend.id && y.id == f.spend.id;
      assert x == y;
      EntryUnique(sources, scoped, e, f);
    }
  }

  // ---------------------------------------------------------------- the balances add up

  function ConsumedTotal(periods: seq<Period>): int {
    if periods == [] then 0 else ConsumedTotal(periods[..|periods| - 1]) + periods[|periods| - 1].consumed
  }

  function BilledTotal(entries: seq<Entry>): nat { SeqSum(SpendsIn(entries), (x: Spend) => Billed(x)) }

  /** The charges of distinct names, summed, are the bills of the spends that have one of them. */
  lemma {:induction false} ChargesPartition(spends: seq<Spend>, names: seq<nat>)
    requires forall i, j :: 0 <= i < j < |names| ==> names[i] != names[j]
    ensures SeqSum(names, (n: nat) => SeqSum(spends, Charge(n)))
      == SeqSum(spends, (x: Spend) => if x.period in names then Billed(x) else 0)
    decreases |names|
  {
    if names == [] {
      NothingBilled(spends);
    } else {
      var most, last := names[..|names| - 1], names[|names| - 1];
      ChargesPartition(spends, most);
      assert names == most + [last];
      assert last !in most;
      SumsAgree(most, (n: nat) => SeqSum(spends, Charge(n)), (n: nat) => SeqSum(spends, Charge(n)));
      OneMoreName(spends, most, last);
    }
  }

  lemma {:induction false} SumsAgree<T(!new)>(s: seq<T>, v: T -> nat, w: T -> nat)
    requires forall x :: x in s ==> v(x) == w(x)
    ensures SeqSum(s, v) == SeqSum(s, w)
    decreases |s|
  {
    if s != [] {
      assert s[|s| - 1] in s;
      assert forall x :: x in s[..|s| - 1] ==> x in s;
      SumsAgree(s[..|s| - 1], v, w);
    }
  }

  lemma {:induction false} NothingBilled(spends: seq<Spend>)
    ensures SeqSum(spends, (x: Spend) => if x.period in [] then Billed(x) else 0) == 0
    decreases |spends|
  {
    if spends != [] { NothingBilled(spends[..|spends| - 1]); }
  }

  lemma {:induction false} OneMoreName(spends: seq<Spend>, names: seq<nat>, last: nat)
    requires last !in names
    ensures SeqSum(spends, (x: Spend) => if x.period in names + [last] then Billed(x) else 0)
      == SeqSum(spends, (x: Spend) => if x.period in names then Billed(x) else 0) + SeqSum(spends, Charge(last))
    decreases |spends|
  {
    if spends != [] { OneMoreName(spends[..|spends| - 1], names, last); }
  }

  function NamesOf(periods: seq<Period>): (names: seq<nat>)
    ensures |names| == |periods| && forall i :: 0 <= i < |periods| ==> names[i] == periods[i].name
  {
    seq(|periods|, i requires 0 <= i < |periods| => periods[i].name)
  }

  lemma {:induction false} ConsumedByName(periods: seq<Period>, w: nat -> nat)
    requires forall p :: p in periods ==> p.consumed == w(p.name)
    ensures ConsumedTotal(periods) == SeqSum(NamesOf(periods), w)
    decreases |periods|
  {
    if periods != [] {
      var n := |periods| - 1;
      assert NamesOf(periods)[..n] == NamesOf(periods[..n]);
      assert forall p :: p in periods[..n] ==> p in periods;
      ConsumedByName(periods[..n], w);
      assert periods[n] in periods;
    }
  }

  function RestoredSpends(entries: seq<Entry>): (spends: seq<Spend>)
    ensures |spends| == |entries| && forall i :: 0 <= i < |entries| ==> spends[i] == Restored(entries[i])
  {
    seq(|entries|, i requires 0 <= i < |entries| => Restored(entries[i]))
  }

  lemma RestoredSorted(entries: seq<Entry>)
    requires SortedById(entries)
    ensures ShardedRows.SortedBy(RestoredSpends(entries), IdOf)
  {
    var spends := RestoredSpends(entries);
    forall i, j | 0 <= i < j < |spends| ensures IdOf(spends[i]) < IdOf(spends[j]) {
      assert spends[i].id == entries[i].spend.id && spends[j].id == entries[j].spend.id;
    }
  }

  lemma RestoredMember(entries: seq<Entry>, x: Spend)
    ensures x in RestoredSpends(entries) <==> Kept(entries, x)
  {
    var spends := RestoredSpends(entries);
    if x in spends {
      var i :| 0 <= i < |spends| && spends[i] == x;
      assert entries[i] in entries;
    }
    if Kept(entries, x) {
      var e :| e in entries && Restored(e) == x;
      var i :| 0 <= i < |entries| && entries[i] == e;
      assert spends[i] == x;
    }
  }

  lemma MergedConsumed(sources: seq<Source>, scoped: Scoped, entries: seq<Entry>, name: nat)
    requires MergedEntries(sources, scoped, entries)
    ensures SeqSum(SpendsIn(entries), Charge(name)) == Consumed(sources, name)
  {
    RestoredSorted(entries);
    forall x ensures x in RestoredSpends(entries) <==> x in AllSpends(sources) {
      RestoredMember(entries, x);
      KeptIsRecorded(sources, scoped, entries, x);
      SpendFrom(sources, x);
    }
    BilledIsConsumed(sources, RestoredSpends(entries), entries, name);
  }

  lemma SpendsListed(sources: seq<Source>, scoped: Scoped, periods: seq<Period>, e: Entry)
    requires (forall s :: s in sources ==> Valid(s)) && EntryOf(sources, scoped, e)
    requires MergedPeriods(sources, periods)
    ensures e.spend.period in NamesOf(periods)
  {
    var name := e.spend.period;
    SpendsHavePeriods(sources, Restored(e));
    var q :| q in AllPeriods(sources) && q.name == name;
    assert HasPeriod(periods, q.name);
    var p :| p in periods && p.name == q.name;
    var k :| 0 <= k < |periods| && periods[k] == p;
    assert NamesOf(periods)[k] == name;
  }

  lemma PeriodsPartition(periods: seq<Period>, spends: seq<Spend>)
    requires SortedByName(periods, NameOf)
    requires forall p :: p in periods ==> p.consumed == SeqSum(spends, Charge(p.name))
    requires forall x :: x in spends ==> x.period in NamesOf(periods)
    ensures ConsumedTotal(periods) == SeqSum(spends, (x: Spend) => Billed(x))
  {
    var names := NamesOf(periods);
    ConsumedByName(periods, (n: nat) => SeqSum(spends, Charge(n)));
    ChargesPartition(spends, names);
    SumsAgree(spends, (x: Spend) => if x.period in names then Billed(x) else 0, (x: Spend) => Billed(x));
  }

  /** Main result: the consumed credits of all merged periods are the billed credits of all merged spends. */
  lemma ConsumedIsBilled(sources: seq<Source>, scoped: Scoped, periods: seq<Period>, entries: seq<Entry>)
    requires Mergeable(sources, scoped) && IsMerge(sources, scoped, periods, entries)
    ensures ConsumedTotal(periods) == BilledTotal(entries)
  {
    forall p | p in periods ensures p.consumed == SeqSum(SpendsIn(entries), Charge(p.name)) {
      MergedConsumed(sources, scoped, entries, p.name);
      assert MergedPeriod(sources, p);
    }
    forall x | x in SpendsIn(entries) ensures x.period in NamesOf(periods) {
      var i :| 0 <= i < |entries| && entries[i].spend == x;
      SpendsListed(sources, scoped, periods, entries[i]);
    }
    PeriodsPartition(periods, SpendsIn(entries));
  }

  /** What the sources together counted for a period. */
  function TotalCounted(sources: seq<Source>, name: nat): nat {
    if sources == [] then 0 else SeqSum(sources[0].spends, Charge(name)) + TotalCounted(sources[1..], name)
  }

  lemma {:induction false} ConsumedAtMostTotal(sources: seq<Source>, name: nat)
    ensures Consumed(sources, name) <= TotalCounted(sources, name)
  {
    if sources != [] {
      var first, rest := sources[0].spends, AllSpends(sources[1..]);
      ConsumedAtMostTotal(sources[1..], name);
      assert Members(AllSpends(sources)) == Members(first) + Members(rest);
      SumOfUnion(Members(first), Members(rest), Charge(name));
      SumOfMembers(first, Charge(name));
    }
  }

  /** Main result: a merged period has consumed at least what any source counted, at most what all of
      them counted together, and no more than the account's limit. */
  lemma ConsumptionIsBounded(
    sources: seq<Source>, scoped: Scoped, periods: seq<Period>, entries: seq<Entry>, p: Period)
    requires Mergeable(sources, scoped) && IsMerge(sources, scoped, periods, entries) && p in periods
    ensures forall s, q :: s in sources && q in s.periods && q.name == p.name ==> q.consumed <= p.consumed <= q.limit
    ensures p.consumed <= TotalCounted(sources, p.name)
  {
    ConsumedAtMostTotal(sources, p.name);
    forall s, q | s in sources && q in s.periods && q.name == p.name ensures q.consumed <= p.consumed <= q.limit {
      assert Valid(s);
      forall i, j | 0 <= i < j < |s.spends| ensures s.spends[i] != s.spends[j] {}
      SeqSumIsSetSum(s.spends, Charge(p.name));
      forall x | x in s.spends ensures x in AllSpends(sources) { SpendFrom(sources, x); }
      SumOfSubset(Members(s.spends), Members(AllSpends(sources)), Charge(p.name));
      assert q in PeriodsOf(s);
      GatherMembers(PeriodsOf, sources, q);
      LimitOfPeriod(sources, q, p.limit);
    }
  }

  lemma LimitOfPeriod(sources: seq<Source>, q: Period, limit: int)
    requires q in AllPeriods(sources) && LimitHolds(sources, q.name)
    requires LimitOf(AllPeriods(sources), NameOf, CeilingOf, q.name, limit)
    ensures q.limit == limit && Consumed(sources, q.name) <= limit
  {
  }

  // ---------------------------------------------------------------- source order

  ghost predicate SameSources(a: seq<Source>, b: seq<Source>) { forall s :: s in a <==> s in b }

  lemma ReorderedSpends(a: seq<Source>, b: seq<Source>)
    requires SameSources(a, b)
    ensures forall x :: x in AllSpends(a) <==> x in AllSpends(b)
    ensures forall p :: p in AllPeriods(a) <==> p in AllPeriods(b)
  {
    forall x ensures x in AllSpends(a) <==> x in AllSpends(b) {
      SpendFrom(a, x);
      SpendFrom(b, x);
    }
    forall p ensures p in AllPeriods(a) <==> p in AllPeriods(b) {
      GatherMembers(PeriodsOf, a, p);
      GatherMembers(PeriodsOf, b, p);
    }
  }

  lemma ReorderedEntry(a: seq<Source>, b: seq<Source>, scoped: Scoped, e: Entry)
    requires SameSources(a, b)
    ensures EntryOf(a, scoped, e) <==> EntryOf(b, scoped, e)
  {
    ReorderedSpends(a, b);
    assert Alone(AllSpends(a), Restored(e)) <==> Alone(AllSpends(b), Restored(e));
    assert LeastScope(a, Restored(e), e.scope) <==> LeastScope(b, Restored(e), e.scope);
  }

  lemma ReorderedRows(
    a: seq<Source>, b: seq<Source>, scoped: Scoped, entries: seq<Entry>, others: seq<Entry>, e: Entry)
    requires SameSources(a, b) && MergedEntries(a, scoped, entries) && MergedEntries(b, scoped, others) && e in entries
    ensures e in others
  {
    ReorderedSpends(a, b);
    ReorderedEntry(a, b, scoped, e);
    var f :| f in others && Restored(f) == Restored(e);
    EntryUnique(b, scoped, e, f);
  }

  function ScopeRank(s: Source): Rank { (s.scope, 0) }

  lemma ReorderedScopes(a: seq<Source>, b: seq<Source>)
    requires multiset(a) == multiset(b) && ScopesOk(a)
    ensures ScopesOk(b)
  {
    assert StableSort.DistinctBy(ScopeRank, a);
    StableSort.PermutedDistinct(ScopeRank, a, b);
    forall i | 0 <= i < |b| ensures b[i].wellFormed {
      assert b[i] in multiset(b);
      assert b[i] in a;
    }
    forall i, j | 0 <= i < j < |b| ensures b[i].scope != b[j].scope {
      assert ScopeRank(b[i]) != ScopeRank(b[j]);
    }
  }

  lemma ReorderedLimits(a: seq<Source>, b: seq<Source>, name: nat)
    requires SameSources(a, b) && LimitHolds(a, name)
    ensures LimitHolds(b, name)
  {
    ReorderedSpends(a, b);
    assert Members(AllSpends(a)) == Members(AllSpends(b));
    var limit :| LimitOf(AllPeriods(a), NameOf, CeilingOf, name, limit) && Consumed(a, name) <= limit;
    assert LimitOf(AllPeriods(b), NameOf, CeilingOf, name, limit);
  }

  lemma StillMergeable(a: seq<Source>, b: seq<Source>, scoped: Scoped)
    requires multiset(a) == multiset(b) && Mergeable(a, scoped)
    ensures Mergeable(b, scoped)
  {
    PermutedMembers(a, b);
    ReorderedScopes(a, b);
    ReorderedSpends(a, b);
    forall e, f | EntryOf(b, scoped, e) && EntryOf(b, scoped, f) && e.spend.requestKey == f.spend.requestKey
      ensures e == f
    {
      ReorderedEntry(a, b, scoped, e);
      ReorderedEntry(a, b, scoped, f);
    }
    forall p | p in AllPeriods(b) ensures LimitHolds(b, p.name) { ReorderedLimits(a, b, p.name); }
  }

  lemma PermutedMembers(a: seq<Source>, b: seq<Source>)
    requires multiset(a) == multiset(b)
    ensures SameSources(a, b)
  {
    forall s: Source ensures s in a <==> s in b {
      assert s in a <==> s in multiset(a);
      assert s in b <==> s in multiset(b);
    }
  }

  /** Main result: the order of the sources does not decide whether they merge. */
  lemma OrderRefusesNothing(a: seq<Source>, b: seq<Source>, scoped: Scoped)
    requires multiset(a) == multiset(b)
    ensures Mergeable(a, scoped) <==> Mergeable(b, scoped)
  {
    if Mergeable(a, scoped) { StillMergeable(a, b, scoped); }
    if Mergeable(b, scoped) { StillMergeable(b, a, scoped); }
  }

  /** Main result: the merged spends are the same whatever the order of the sources. */
  lemma SourceOrderIsIrrelevant(
    a: seq<Source>, b: seq<Source>, scoped: Scoped, entries: seq<Entry>, others: seq<Entry>)
    requires SameSources(a, b) && MergedEntries(a, scoped, entries) && MergedEntries(b, scoped, others)
    ensures entries == others
  {
    forall e ensures e in entries <==> e in others {
      if e in entries { ReorderedRows(a, b, scoped, entries, others, e); }
      if e in others { ReorderedRows(b, a, scoped, others, entries, e); }
    }
    ShardedRows.SortedListUnique(entries, others, EntryId);
  }

  /** And so are the balances, except for how equal update times are written. */
  lemma BalancesIgnoreOrder(a: seq<Source>, b: seq<Source>, p: Period, q: Period)
    requires SameSources(a, b) && MergedPeriod(a, p) && MergedPeriod(b, q) && p.name == q.name
    ensures p.limit == q.limit && p.consumed == q.consumed && Instant(p.updated) == Instant(q.updated)
  {
    ReorderedSpends(a, b);
    assert Members(AllSpends(a)) == Members(AllSpends(b));
    var r :| r in AllPeriods(a) && r.name == p.name;
    forall t ensures t in Gather(UpdatesOf(p.name), a) <==> t in Gather(UpdatesOf(p.name), b) {
      GatherMembers(UpdatesOf(p.name), a, t);
      GatherMembers(UpdatesOf(p.name), b, t);
    }
    PickOfPermuted(Later, Gather(UpdatesOf(p.name), a), Gather(UpdatesOf(p.name), b));
  }
}
