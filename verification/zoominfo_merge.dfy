/**
 Merging the ZoomInfo credit ledgers of several machines: exact clones of a spend are kept
 once, different spends with one request key are kept apart, and balances are recomputed.

 SHA-256 over a scope, a spend and its key appears as the parameter `scoped`.
 */
module ZoomInfoMerge {
  import opened Options
  import opened FirstBest
  import opened LedgerStamps
  import opened LedgerPeriods
  import opened SetSums
  import ShardedRows

  // ---------------------------------------------------------------- ledgers

  datatype SpendState = Reserved | Indeterminate | Settled | Released | UnknownState(text: nat)

  datatype Spend = Spend(
    id: nat, period: nat, requestKey: nat, reserved: int, billed: Option<int>, state: SpendState,
    started: Stamp, details: nat)

  datatype Period = Period(name: nat, limit: int, consumed: int, updated: Stamp)

  datatype Source = Source(scope: nat, wellFormed: bool, periods: seq<Period>, spends: seq<Spend>)

  /** A merged spend: its request key may be replaced, the original is kept beside it. */
  datatype Entry = Entry(spend: Spend, scope: nat, legacyKey: nat)

  function Restored(e: Entry): Spend { e.spend.(requestKey := e.legacyKey) }

  // ---------------------------------------------------------------- one valid ledger

  /** What a spend adds to the consumption of a period. */
  function Charge(name: nat): Spend -> nat {
    (x: Spend) => if x.period == name then Billed(x) else 0
  }

  function Billed(x: Spend): nat {
    if x.state.Settled? && x.billed.Some? && x.billed.value >= 0 then x.billed.value else 0
  }

  predicate SpendOk(x: Spend) {
    && x.id != 0 && x.requestKey != 0 && x.reserved > 0 && x.started.Stamp?
    && match x.state
       case Settled => x.billed.Some? && 0 <= x.billed.value <= x.reserved
       case Released => x.billed.None? || x.billed.value == 0
       case _ => false
  }

  ghost predicate DistinctSpends(spends: seq<Spend>) {
    forall i, j :: 0 <= i < j < |spends| ==>
      spends[i].id != spends[j].id && spends[i].requestKey != spends[j].requestKey
  }

  function NameOf(p: Period): nat { p.name }

  function CeilingOf(p: Period): int { p.limit }

  function UpdateOf(p: Period): Stamp { p.updated }

  ghost predicate HasPeriod(periods: seq<Period>, name: nat) { HasName(periods, NameOf, name) }

  predicate PeriodOk(p: Period) { p.limit >= 0 && p.consumed <= p.limit && p.updated.Stamp? }

  /** `_validate_source`: every balance is what the settled spends of its period were billed. */
  ghost predicate Valid(s: Source) {
    && DistinctNames(s.periods, NameOf) && DistinctSpends(s.spends)
    && (forall x :: x in s.spends ==> SpendOk(x) && HasPeriod(s.periods, x.period))
    && (forall p :: p in s.periods ==> PeriodOk(p) && p.consumed == SeqSum(s.spends, Charge(p.name)))
  }

  ghost function IdsIn(spends: seq<Spend>): set<nat> { set x | x in spends :: x.id }

  ghost function KeysIn(spends: seq<Spend>): set<nat> { set x | x in spends :: x.requestKey }

  lemma OneMoreSpend(spends: seq<Spend>, i: nat)
    requires i < |spends|
    ensures IdsIn(spends[..i + 1]) == IdsIn(spends[..i]) + {spends[i].id}
    ensures KeysIn(spends[..i + 1]) == KeysIn(spends[..i]) + {spends[i].requestKey}
    ensures DistinctSpends(spends[..i + 1]) <==>
      && DistinctSpends(spends[..i])
      && spends[i].id !in IdsIn(spends[..i]) && spends[i].requestKey !in KeysIn(spends[..i])
  {
    var now, more := spends[..i], spends[..i + 1];
    assert more == now + [spends[i]];
    if DistinctSpends(more) {
      forall x | x in now ensures x.id != spends[i].id && x.requestKey != spends[i].requestKey {
        var j :| 0 <= j < i && now[j] == x;
        assert more[j].id != more[i].id && more[j].requestKey != more[i].requestKey;
      }
      assert forall j, k :: 0 <= j < k < i ==> now[j] == more[j] && now[k] == more[k];
    }
    if DistinctSpends(now) && spends[i].id !in IdsIn(now) && spends[i].requestKey !in KeysIn(now) {
      assert forall j :: 0 <= j < i ==> more[j] == now[j] && now[j] in now;
    }
  }

  lemma DistinctPrefix(spends: seq<Spend>, i: nat)
    requires i <= |spends|
    ensures DistinctSpends(spends) ==> DistinctSpends(spends[..i])
  {
  }

  method CheckSpends(spends: seq<Spend>, names: set<nat>) returns (ok: bool)
    ensures ok <==> DistinctSpends(spends) && forall x :: x in spends ==> SpendOk(x) && x.period in names
  {
    var ids: set<nat> := {};
    var requestKeys: set<nat> := {};
    for i := 0 to |spends|
      invariant forall x :: x in spends[..i] ==> SpendOk(x) && x.period in names
      invariant DistinctSpends(spends[..i])
      invariant ids == IdsIn(spends[..i]) && requestKeys == KeysIn(spends[..i])
    {
      var x := spends[i];
      OneMoreSpend(spends, i);
      DistinctPrefix(spends, i + 1);
      assert spends[..i + 1] == spends[..i] + [x] && x in spends;
      if !SpendOk(x) || x.period !in names || x.id in ids || x.requestKey in requestKeys { return false; }
      ids, requestKeys := ids + {x.id}, requestKeys + {x.requestKey};
    }
    assert spends[..|spends|] == spends;
    ok := true;
  }

  /** What was billed in each period, in one pass. */
  method BilledByPeriod(spends: seq<Spend>, names: set<nat>) returns (totals: map<nat, int>)
    requires forall x :: x in spends ==> x.period in names
    ensures totals.Keys == names && forall n :: n in names ==> totals[n] == SeqSum(spends, Charge(n))
  {
    totals := map n | n in names :: 0;
    for i := 0 to |spends|
      invariant totals.Keys == names && forall n :: n in names ==> totals[n] == SeqSum(spends[..i], Charge(n))
    {
      var x := spends[i];
      assert x in spends;
      assert spends[..i + 1][..i] == spends[..i];
      assert forall n :: SeqSum(spends[..i + 1], Charge(n)) == SeqSum(spends[..i], Charge(n)) + Charge(n)(x);
      totals := totals[x.period := totals[x.period] + Billed(x)];
    }
    assert spends[..|spends|] == spends;
  }

  method CheckBalances(periods: seq<Period>, totals: map<nat, int>) returns (ok: bool)
    requires forall p :: p in periods ==> p.name in totals
    ensures ok <==> forall p :: p in periods ==> PeriodOk(p) && p.consumed == totals[p.name]
  {
    for i := 0 to |periods|
      invariant forall j :: 0 <= j < i ==> PeriodOk(periods[j]) && periods[j].consumed == totals[periods[j].name]
    {
      assert periods[i] in periods;
      if !PeriodOk(periods[i]) || periods[i].consumed != totals[periods[i].name] { return false; }
    }
    ok := true;
  }

  method ValidateSource(s: Source) returns (ok: bool)
    ensures ok <==> Valid(s)
  {
    var distinct, names := CollectNames(s.periods, NameOf);
    if !distinct { return false; }
    var spendsOk := CheckSpends(s.spends, names);
    assert forall n :: n in names <==> HasPeriod(s.periods, n);
    if !spendsOk { return false; }
    var totals := BilledByPeriod(s.spends, names);
    ok := CheckBalances(s.periods, totals);
  }

  // ---------------------------------------------------------------- the merge

  function SpendsOf(s: Source): seq<Spend> { s.spends }

  function PeriodsOf(s: Source): seq<Period> { s.periods }

  function AllSpends(sources: seq<Source>): seq<Spend> { Gather(SpendsOf, sources) }

  function AllPeriods(sources: seq<Source>): seq<Period> { Gather(PeriodsOf, sources) }

  /** The update stamps of one period name, in source order. */
  function UpdatesOf(name: nat): Source -> seq<Stamp> { StampsOf(PeriodsOf, NameOf, UpdateOf, name) }

  type Scoped = (nat, nat, nat) -> nat

  ghost predicate Consistent(spends: seq<Spend>) {
    forall a, b | a in spends && b in spends :: a.id == b.id ==> a == b
  }

  /** No other spend uses this one's request key. */
  ghost predicate Alone(spends: seq<Spend>, x: Spend) {
    forall y :: y in spends && y.requestKey == x.requestKey ==> y == x
  }

  /** The first scope, in order, that recorded the spend. */
  ghost predicate LeastScope(sources: seq<Source>, x: Spend, scope: nat) {
    && (exists s :: s in sources && x in s.spends && s.scope == scope)
    && forall s :: s in sources && x in s.spends ==> scope <= s.scope
  }

  /** The row the merge writes for one spend. */
  ghost predicate EntryOf(sources: seq<Source>, scoped: Scoped, e: Entry) {
    && Restored(e) in AllSpends(sources)
    && LeastScope(sources, Restored(e), e.scope)
    && e.spend.requestKey ==
         if Alone(AllSpends(sources), Restored(e)) then e.legacyKey else scoped(e.scope, e.spend.id, e.legacyKey)
  }

  ghost predicate KeysDistinct(sources: seq<Source>, scoped: Scoped) {
    forall e, f | EntryOf(sources, scoped, e) && EntryOf(sources, scoped, f) ::
      e.spend.requestKey == f.spend.requestKey ==> e == f
  }

  /** Distinct spends of a period, each charged once. */
  ghost function Consumed(sources: seq<Source>, name: nat): nat { SetSum(Members(AllSpends(sources)), Charge(name)) }

  ghost predicate LimitHolds(sources: seq<Source>, name: nat) {
    exists limit :: LimitOf(AllPeriods(sources), NameOf, CeilingOf, name, limit) && Consumed(sources, name) <= limit
  }

  ghost predicate ScopesOk(sources: seq<Source>) {
    && (forall i :: 0 <= i < |sources| ==> sources[i].wellFormed)
    && forall i, j :: 0 <= i < j < |sources| ==> sources[i].scope != sources[j].scope
  }

  ghost predicate Mergeable(sources: seq<Source>, scoped: Scoped) {
    && sources != [] && ScopesOk(sources)
    && (forall s :: s in sources ==> Valid(s))
    && Consistent(AllSpends(sources)) && KeysDistinct(sources, scoped)
    && forall p :: p in AllPeriods(sources) ==> LimitHolds(sources, p.name)
  }

  ghost predicate MergedPeriod(sources: seq<Source>, p: Period) {
    && LimitOf(AllPeriods(sources), NameOf, CeilingOf, p.name, p.limit)
    && p.consumed == Consumed(sources, p.name)
    && Pick(Later, Gather(UpdatesOf(p.name), sources)) == Some(p.updated)
  }

  ghost predicate SortedById(entries: seq<Entry>) {
    forall i, j :: 0 <= i < j < |entries| ==> entries[i].spend.id < entries[j].spend.id
  }

  ghost predicate MergedEntries(sources: seq<Source>, scoped: Scoped, entries: seq<Entry>) {
    && SortedById(entries)
    && (forall e :: e in entries ==> EntryOf(sources, scoped, e))
    && forall x :: x in AllSpends(sources) ==> exists e :: e in entries && Restored(e) == x
  }

  ghost predicate MergedPeriods(sources: seq<Source>, periods: seq<Period>) {
    && SortedByName(periods, NameOf)
    && (forall p {:trigger HasPeriod(periods, p.name)} :: p in AllPeriods(sources) ==> HasPeriod(periods, p.name))
    && forall p :: p in periods ==> MergedPeriod(sources, p)
  }

  /** `_merge`. */
  ghost predicate IsMerge(sources: seq<Source>, scoped: Scoped, periods: seq<Period>, entries: seq<Entry>) {
    MergedEntries(sources, scoped, entries) && MergedPeriods(sources, periods)
  }

  // ---------------------------------------------------------------- the loops

  function IdOf(x: Spend): nat { x.id }

  function EntryId(e: Entry): nat { e.spend.id }

  method CheckSources(sources: seq<Source>) returns (ok: bool)
    ensures ok <==> ScopesOk(sources) && forall s :: s in sources ==> Valid(s)
  {
    var seen: set<nat> := {};
    for i := 0 to |sources|
      invariant seen == (set j | 0 <= j < i :: sources[j].scope)
      invariant forall j :: 0 <= j < i ==> sources[j].wellFormed && Valid(sources[j])
      invariant forall j, k :: 0 <= j < k < i ==> sources[j].scope != sources[k].scope
    {
      assert sources[i] in sources;
      if !sources[i].wellFormed || sources[i].scope in seen { return false; }
      seen := seen + {sources[i].scope};
      var valid := ValidateSource(sources[i]);
      if !valid { return false; }
    }
    ok := true;
  }

  /** The spends by id, or a refusal of two histories under one id. */
  method CollectSpends(spends: seq<Spend>) returns (ok: bool, byId: map<nat, Spend>)
    ensures ok <==> Consistent(spends)
    ensures ok ==> forall x: Spend :: x.id in byId && byId[x.id] == x <==> x in spends
    ensures ok ==> forall i :: i in byId ==> byId[i].id == i
  {
    byId := map[];
    for i := 0 to |spends|
      invariant forall k :: k in byId ==> byId[k].id == k && byId[k] in spends[..i]
      invariant forall j :: 0 <= j < i ==> spends[j].id in byId && byId[spends[j].id] == spends[j]
    {
      var x := spends[i];
      assert spends[..i + 1] == spends[..i] + [x];
      if x.id in byId && byId[x.id] != x { return false, byId; }
      byId := byId[x.id := x];
    }
    assert spends[..|spends|] == spends;
    ok := true;
  }

  method SortSpends(byId: map<nat, Spend>) returns (spends: seq<Spend>)
    requires forall i :: i in byId ==> byId[i].id == i
    ensures ShardedRows.SortedBy(spends, IdOf)
    ensures forall x :: x in spends <==> x.id in byId && byId[x.id] == x
  {
    spends := [];
    var todo := byId.Keys;
    while todo != {}
      invariant todo <= byId.Keys && ShardedRows.SortedBy(spends, IdOf)
      invariant forall x :: x in spends <==> x.id in byId.Keys - todo && byId[x.id] == x
      decreases todo
    {
      var id :| id in todo;
      ShardedRows.InsertKeepsSorted(spends, byId[id], IdOf);
      spends := ShardedRows.Insert(spends, byId[id], IdOf);
      todo := todo - {id};
    }
  }

  /** The first scope, in order, among the sources that recorded the spend. */
  method FirstScope(sources: seq<Source>, x: Spend) returns (scope: nat)
    requires exists s :: s in sources && x in s.spends
    ensures LeastScope(sources, x, scope)
  {
    var best: Option<nat> := None;
    for i := 0 to |sources|
      invariant best.Some? ==> LeastScope(sources[..i], x, best.value)
      invariant best.None? ==> forall s :: s in sources[..i] ==> x !in s.spends
    {
      assert sources[..i + 1] == sources[..i] + [sources[i]];
      assert sources[i] in sources[..i + 1];
      if x in sources[i].spends && (best.None? || sources[i].scope < best.value) {
        best := Some(sources[i].scope);
      }
    }
    assert sources[..|sources|] == sources;
    scope := best.value;
  }

  /** How the spends group by request key: the ids under each. */
  method GroupByKey(spends: seq<Spend>) returns (groups: map<nat, set<nat>>)
    ensures forall x :: x in spends ==> x.requestKey in groups && x.id in groups[x.requestKey]
    ensures forall k, id | k in groups && id in groups[k] ::
      exists x :: x in spends && x.requestKey == k && x.id == id
  {
    groups := map[];
    for i := 0 to |spends|
      invariant forall x :: x in spends[..i] ==> x.requestKey in groups && x.id in groups[x.requestKey]
      invariant forall k, id | k in groups && id in groups[k] ::
        exists x :: x in spends[..i] && x.requestKey == k && x.id == id
    {
      var x := spends[i];
      assert spends[..i + 1] == spends[..i] + [x];
      assert x in spends[..i + 1];
      var before := if x.requestKey in groups then groups[x.requestKey] else {};
      groups := groups[x.requestKey := before + {x.id}];
    }
    assert spends[..|spends|] == spends;
  }

  lemma GroupedAlone(spends: seq<Spend>, groups: map<nat, set<nat>>, x: Spend)
    requires Consistent(spends) && x in spends
    requires forall y :: y in spends ==> y.requestKey in groups && y.id in groups[y.requestKey]
    requires forall k, id | k in groups && id in groups[k] ::
      exists y :: y in spends && y.requestKey == k && y.id == id
    ensures Alone(spends, x) <==> groups[x.requestKey] == {x.id}
  {
    if groups[x.requestKey] == {x.id} {
      forall y | y in spends && y.requestKey == x.requestKey ensures y == x {
        assert y.id in groups[y.requestKey];
      }
    }
    if Alone(spends, x) {
      forall id | id in groups[x.requestKey] ensures id == x.id {
        var y :| y in spends && y.requestKey == x.requestKey && y.id == id;
      }
    }
  }

  /** Which spends are alone under their key. */
  method MarkAlone(spends: seq<Spend>) returns (alone: seq<bool>)
    requires Consistent(spends)
    ensures |alone| == |spends| && forall i :: 0 <= i < |spends| ==> alone[i] == Alone(spends, spends[i])
  {
    var groups := GroupByKey(spends);
    alone := [];
    for i := 0 to |spends|
      invariant |alone| == i && forall j :: 0 <= j < i ==> alone[j] == Alone(spends, spends[j])
    {
      GroupedAlone(spends, groups, spends[i]);
      alone := alone + [groups[spends[i].requestKey] == {spends[i].id}];
    }
  }

  lemma SpendFrom(sources: seq<Source>, x: Spend)
    ensures x in AllSpends(sources) <==> exists s :: s in sources && x in s.spends
  {
    GatherMembers(SpendsOf, sources, x);
    assert forall s :: SpendsOf(s) == s.spends;
  }

  /** The destination row of one spend. */
  method BuildEntry(sources: seq<Source>, scoped: Scoped, x: Spend, alone: bool) returns (e: Entry)
    requires x in AllSpends(sources) && alone == Alone(AllSpends(sources), x)
    ensures EntryOf(sources, scoped, e) && Restored(e) == x
  {
    SpendFrom(sources, x);
    var scope := FirstScope(sources, x);
    var key := if alone then x.requestKey else scoped(scope, x.id, x.requestKey);
    e := Entry(x.(requestKey := key), scope, x.requestKey);
    assert Restored(e) == x;
  }

  lemma SameAlone(a: seq<Spend>, b: seq<Spend>, x: Spend)
    requires forall y :: y in a <==> y in b
    ensures Alone(a, x) <==> Alone(b, x)
  {
  }

  ghost function FineEntry(sources: seq<Source>, scoped: Scoped): Entry -> bool { e => EntryOf(sources, scoped, e) }

  /** One destination row per distinct spend. */
  method BuildEntries(sources: seq<Source>, scoped: Scoped, spends: seq<Spend>, alone: seq<bool>)
    returns (entries: seq<Entry>)
    requires |alone| == |spends| && forall i :: 0 <= i < |spends| ==>
      spends[i] in AllSpends(sources) && alone[i] == Alone(AllSpends(sources), spends[i])
    ensures |entries| == |spends|
    ensures forall i :: 0 <= i < |spends| ==>
      FineEntry(sources, scoped)(entries[i]) && Restored(entries[i]) == spends[i]
  {
    ghost var fine := FineEntry(sources, scoped);
    entries := [];
    for i := 0 to |spends|
      invariant |entries| == i
      invariant forall j :: 0 <= j < i ==> fine(entries[j]) && Restored(entries[j]) == spends[j]
    {
      var e := BuildEntry(sources, scoped, spends[i], alone[i]);
      entries := entries + [e];
    }
  }

  lemma MarkedAlone(sources: seq<Source>, spends: seq<Spend>, alone: seq<bool>)
    requires forall x :: x in spends <==> x in AllSpends(sources)
    requires |alone| == |spends| && forall i :: 0 <= i < |spends| ==> alone[i] == Alone(spends, spends[i])
    ensures forall i :: 0 <= i < |spends| ==>
      spends[i] in AllSpends(sources) && alone[i] == Alone(AllSpends(sources), spends[i])
  {
    forall i | 0 <= i < |spends|
      ensures spends[i] in AllSpends(sources) && alone[i] == Alone(AllSpends(sources), spends[i])
    {
      assert spends[i] in spends;
      SameAlone(spends, AllSpends(sources), spends[i]);
    }
  }

  lemma EntryUnique(sources: seq<Source>, scoped: Scoped, e: Entry, f: Entry)
    requires EntryOf(sources, scoped, e) && EntryOf(sources, scoped, f) && Restored(e) == Restored(f)
    ensures e == f
  {
    var s :| s in sources && Restored(e) in s.spends && s.scope == e.scope;
    var t :| t in sources && Restored(f) in t.spends && t.scope == f.scope;
    assert e.scope == f.scope && e.legacyKey == f.legacyKey;
    assert e.spend == Restored(e).(requestKey := e.spend.requestKey);
    assert f.spend == Restored(f).(requestKey := f.spend.requestKey);
  }

  /** The built rows are all the rows there are. */
  lemma BuiltEntries(sources: seq<Source>, scoped: Scoped, spends: seq<Spend>, entries: seq<Entry>)
    requires ShardedRows.SortedBy(spends, IdOf) && forall x :: x in spends <==> x in AllSpends(sources)
    requires |entries| == |spends|
    requires forall i :: 0 <= i < |spends| ==> EntryOf(sources, scoped, entries[i]) && Restored(entries[i]) == spends[i]
    ensures MergedEntries(sources, scoped, entries)
    ensures forall e :: e in entries <==> EntryOf(sources, scoped, e)
  {
    forall i, j | 0 <= i < j < |entries| ensures entries[i].spend.id < entries[j].spend.id {
      assert IdOf(spends[i]) < IdOf(spends[j]);
      assert Restored(entries[i]).id == entries[i].spend.id && Restored(entries[j]).id == entries[j].spend.id;
    }
    forall x | x in spends ensures exists e :: e in entries && Restored(e) == x {
      var i :| 0 <= i < |spends| && spends[i] == x;
      assert entries[i] in entries;
    }
    forall e | EntryOf(sources, scoped, e) ensures e in entries {
      assert Restored(e) in spends;
      var i :| 0 <= i < |spends| && spends[i] == Restored(e);
      EntryUnique(sources, scoped, e, entries[i]);
    }
  }

  method KeysRepeat(entries: seq<Entry>) returns (repeat: bool)
    ensures repeat <==>
      exists i, j :: 0 <= i < j < |entries| && entries[i].spend.requestKey == entries[j].spend.requestKey
  {
    var keys: set<nat> := {};
    for i := 0 to |entries|
      invariant keys == (set j | 0 <= j < i :: entries[j].spend.requestKey)
      invariant forall j, k :: 0 <= j < k < i ==> entries[j].spend.requestKey != entries[k].spend.requestKey
    {
      if entries[i].spend.requestKey in keys {
        ghost var j :| 0 <= j < i && entries[j].spend.requestKey == entries[i].spend.requestKey;
        return true;
      }
      keys := keys + {entries[i].spend.requestKey};
    }
    repeat := false;
  }

  lemma KeysChecked(sources: seq<Source>, scoped: Scoped, entries: seq<Entry>)
    requires SortedById(entries) && forall e :: e in entries <==> EntryOf(sources, scoped, e)
    ensures KeysDistinct(sources, scoped) <==>
      forall i, j :: 0 <= i < j < |entries| ==> entries[i].spend.requestKey != entries[j].spend.requestKey
  {
    if KeysDistinct(sources, scoped) {
      forall i, j | 0 <= i < j < |entries| ensures entries[i].spend.requestKey != entries[j].spend.requestKey {
        assert entries[i] in entries && entries[j] in entries;
      }
    }
    if forall i, j :: 0 <= i < j < |entries| ==> entries[i].spend.requestKey != entries[j].spend.requestKey {
      forall e, f |
        EntryOf(sources, scoped, e) && EntryOf(sources, scoped, f) && e.spend.requestKey == f.spend.requestKey
        ensures e == f
      {
        assert e in entries && f in entries;
        var i :| 0 <= i < |entries| && entries[i] == e;
        var j :| 0 <= j < |entries| && entries[j] == f;
      }
    }
  }

  function SpendsIn(entries: seq<Entry>): (spends: seq<Spend>)
    ensures |spends| == |entries| && forall i :: 0 <= i < |entries| ==> spends[i] == entries[i].spend
  {
    seq(|entries|, i requires 0 <= i < |entries| => entries[i].spend)
  }

  lemma {:induction false} ChargesAgree(a: seq<Spend>, b: seq<Spend>, name: nat)
    requires |a| == |b| && forall i :: 0 <= i < |a| ==> Charge(name)(a[i]) == Charge(name)(b[i])
    ensures SeqSum(a, Charge(name)) == SeqSum(b, Charge(name))
    decreases |a|
  {
    if a != [] { ChargesAgree(a[..|a| - 1], b[..|b| - 1], name); }
  }

  /** What the destination rows were billed is what the distinct source spends were. */
  lemma BilledIsConsumed(sources: seq<Source>, spends: seq<Spend>, entries: seq<Entry>, name: nat)
    requires ShardedRows.SortedBy(spends, IdOf) && forall x :: x in spends <==> x in AllSpends(sources)
    requires |entries| == |spends| && forall i :: 0 <= i < |spends| ==> Restored(entries[i]) == spends[i]
    ensures SeqSum(SpendsIn(entries), Charge(name)) == Consumed(sources, name)
  {
    forall i | 0 <= i < |spends| ensures Charge(name)(SpendsIn(entries)[i]) == Charge(name)(spends[i]) {
      assert Restored(entries[i]).period == entries[i].spend.period;
    }
    ChargesAgree(SpendsIn(entries), spends, name);
    forall i, j | 0 <= i < j < |spends| ensures spends[i] != spends[j] {
      assert IdOf(spends[i]) < IdOf(spends[j]);
    }
    SeqSumIsSetSum(spends, Charge(name));
    assert Members(spends) == Members(AllSpends(sources));
  }

  ghost function FineRow(sources: seq<Source>): Period -> bool { p => MergedPeriod(sources, p) }

  /** One merged period, or a refusal of its account limit. */
  method MergePeriod(sources: seq<Source>, name: nat, consumed: int) returns (row: Option<Period>)
    requires HasPeriod(AllPeriods(sources), name) && consumed == Consumed(sources, name)
    ensures row.Some? <==> LimitHolds(sources, name)
    ensures row.Some? ==> row.value.name == name && MergedPeriod(sources, row.value)
  {
    var limit := AgreedLimit(AllPeriods(sources), NameOf, CeilingOf, name);
    if limit.None? { return None; }
    if consumed > limit.value { return None; }
    GatheredStamps(sources, PeriodsOf, NameOf, UpdateOf, name);
    PickDominates(Later, Gather(UpdatesOf(name), sources));
    var updated := PickRow(Later, Gather(UpdatesOf(name), sources));
    row := Some(Period(name, limit.value, consumed, updated.value));
  }

  method MergePeriods(sources: seq<Source>, totals: map<nat, int>) returns (ok: bool, periods: seq<Period>)
    requires forall p :: p in AllPeriods(sources) ==> p.name in totals && totals[p.name] == Consumed(sources, p.name)
    ensures ok <==> forall p :: p in AllPeriods(sources) ==> LimitHolds(sources, p.name)
    ensures ok ==> Covers(periods, NameOf, set p | p in AllPeriods(sources) :: p.name, FineRow(sources))
  {
    periods := [];
    ghost var fine := FineRow(sources);
    var names := set p | p in AllPeriods(sources) :: p.name;
    var todo := names;
    while todo != {}
      invariant todo <= names && Covers(periods, NameOf, names - todo, fine)
      invariant forall n :: n in names - todo ==> LimitHolds(sources, n)
      decreases todo
    {
      var name :| name in todo;
      var row := MergePeriod(sources, name, totals[name]);
      if row.None? { return false, periods; }
      RowAdded(periods, NameOf, row.value, names - todo, fine);
      periods := ShardedRows.Insert(periods, row.value, NameOf);
      assert names - todo + {name} == names - (todo - {name});
      todo := todo - {name};
    }
    assert names - todo == names;
    ok := true;
  }

  lemma CoveredPeriods(sources: seq<Source>, periods: seq<Period>)
    requires Covers(periods, NameOf, set p | p in AllPeriods(sources) :: p.name, FineRow(sources))
    ensures MergedPeriods(sources, periods)
  {
    forall i, j | 0 <= i < j < |periods| ensures periods[i].name < periods[j].name {
      assert NameOf(periods[i]) < NameOf(periods[j]);
    }
    forall p | p in periods ensures MergedPeriod(sources, p) {
      assert FineRow(sources)(p);
    }
  }

  /** Every spend of a valid source belongs to a period some source lists. */
  lemma SpendsHavePeriods(sources: seq<Source>, x: Spend)
    requires (forall s :: s in sources ==> Valid(s)) && x in AllSpends(sources)
    ensures HasPeriod(AllPeriods(sources), x.period) && SpendOk(x)
  {
    SpendFrom(sources, x);
    var s :| s in sources && x in s.spends;
    assert Valid(s);
    var p :| p in s.periods && p.name == x.period;
    assert p in PeriodsOf(s);
    GatherMembers(PeriodsOf, sources, p);
  }

  /** The destination spends, or a refusal of conflicting histories or colliding keys. */
  method MergeSpends(sources: seq<Source>, scoped: Scoped) returns (ok: bool, entries: seq<Entry>)
    ensures ok <==> Consistent(AllSpends(sources)) && KeysDistinct(sources, scoped)
    ensures ok ==> MergedEntries(sources, scoped, entries)
    ensures ok ==> forall n :: SeqSum(SpendsIn(entries), Charge(n)) == Consumed(sources, n)
    ensures ok ==> forall e :: e in entries ==> Restored(e) in AllSpends(sources)
  {
    var consistent, byId := CollectSpends(AllSpends(sources));
    if !consistent { return false, []; }
    var spends := SortSpends(byId);
    var alone := MarkAlone(spends);
    MarkedAlone(sources, spends, alone);
    entries := BuildEntries(sources, scoped, spends, alone);
    BuiltEntries(sources, scoped, spends, entries);
    KeysChecked(sources, scoped, entries);
    var repeat := KeysRepeat(entries);
    ok := !repeat;
    forall n ensures SeqSum(SpendsIn(entries), Charge(n)) == Consumed(sources, n) {
      BilledIsConsumed(sources, spends, entries, n);
    }
  }

  /** The destination periods, or a refusal of an account limit. */
  method MergeBalances(sources: seq<Source>, entries: seq<Entry>) returns (ok: bool, periods: seq<Period>)
    requires forall s :: s in sources ==> Valid(s)
    requires forall n :: SeqSum(SpendsIn(entries), Charge(n)) == Consumed(sources, n)
    requires forall e :: e in entries ==> Restored(e) in AllSpends(sources)
    ensures ok <==> forall p :: p in AllPeriods(sources) ==> LimitHolds(sources, p.name)
    ensures ok ==> MergedPeriods(sources, periods)
  {
    var names := set p | p in AllPeriods(sources) :: p.name;
    forall x | x in SpendsIn(entries) ensures x.period in names {
      var i :| 0 <= i < |entries| && entries[i].spend == x;
      assert entries[i] in entries;
      SpendsHavePeriods(sources, Restored(entries[i]));
    }
    var totals := BilledByPeriod(SpendsIn(entries), names);
    ok, periods := MergePeriods(sources, totals);
    if ok { CoveredPeriods(sources, periods); }
  }

  /** `_merge`. */
  method Merge(sources: seq<Source>, scoped: Scoped) returns (ok: bool, periods: seq<Period>, entries: seq<Entry>)
    ensures ok <==> Mergeable(sources, scoped)
    ensures ok ==> IsMerge(sources, scoped, periods, entries)
  {
    periods, entries := [], [];
    if sources == [] { return false, periods, entries; }
    var valid := CheckSources(sources);
    if !valid { return false, periods, entries; }
    ok, entries := MergeSpends(sources, scoped);
    if ok { ok, periods := MergeBalances(sources, entries); }
  }
}
