/**
 Merging Firecrawl ledgers of several machines into one: what a valid ledger is, what the
 merge of valid ledgers is, and the loops that decide and compute both.

 Identifiers stand for the texts of the columns; 0 is the empty text. `details` stands for the
 columns of an attempt that are only compared and copied.
 */
module FirecrawlMerge {
  import opened Options
  import opened FirstBest
  import opened LedgerStamps
  import opened LedgerPeriods
  import ShardedRows

  // ---------------------------------------------------------------- ledgers

  datatype State = InFlight | Completed | Failed | Indeterminate | RateLimited | UnknownState(text: nat)
  datatype Operation = Search | Scrape | UnknownOperation(text: nat)
  datatype Hash = Hash(text: nat, wellFormed: bool)

  datatype Attempt = Attempt(
    id: nat, requestKey: nat, operation: Operation, period: nat, state: State, started: Stamp,
    hash: Option<Hash>, number: int, details: nat)

  datatype Period = Period(name: nat, limit: int, reserved: int, created: Stamp, updated: Stamp)
  datatype Provider = Provider(firecrawl: bool, blockedUntil: Option<Stamp>, reason: nat, updated: Stamp)
  datatype Rate = Rate(singleton: int, nextCall: Stamp, updated: Stamp)

  datatype Snapshot = Snapshot(
    periods: seq<Period>, attempts: seq<Attempt>, provider: seq<Provider>, rate: seq<Rate>, reconcile: bool)

  /** Attempts whose request is unknown while their outcome is open. */
  predicate NeedsReconciling(a: Attempt) { a.hash.None? && (a.state.InFlight? || a.state.Indeterminate?) }

  ghost predicate Flagged(s: Snapshot) { s.reconcile <==> exists a :: a in s.attempts && NeedsReconciling(a) }

  // ---------------------------------------------------------------- one valid ledger

  function Count(attempts: seq<Attempt>, period: nat): nat {
    if attempts == [] then 0
    else Count(attempts[..|attempts| - 1], period) + if attempts[|attempts| - 1].period == period then 1 else 0
  }

  predicate AttemptOk(a: Attempt) {
    && a.id != 0 && a.requestKey != 0 && !a.operation.UnknownOperation? && !a.state.UnknownState?
    && a.number > 0 && (a.hash.Some? ==> a.hash.value.wellFormed) && a.started.Stamp?
  }

  predicate PeriodOk(p: Period) {
    p.limit > 0 && 0 <= p.reserved <= p.limit && p.created.Stamp? && p.updated.Stamp?
  }

  predicate ProviderOk(p: Provider) {
    p.firecrawl && (p.blockedUntil.Some? ==> p.blockedUntil.value.Stamp?) && p.updated.Stamp?
  }

  predicate RateOk(r: Rate) { r.singleton == 1 && r.nextCall.Stamp? && r.updated.Stamp? }

  function NameOf(p: Period): nat { p.name }

  function CeilingOf(p: Period): int { p.limit }

  function CreationOf(p: Period): Stamp { p.created }

  function UpdateOf(p: Period): Stamp { p.updated }

  ghost predicate HasPeriod(periods: seq<Period>, name: nat) { HasName(periods, NameOf, name) }

  ghost predicate DistinctAttempts(attempts: seq<Attempt>) {
    forall i, j :: 0 <= i < j < |attempts| ==>
      attempts[i].id != attempts[j].id && attempts[i].requestKey != attempts[j].requestKey
  }

  /** `_validate`: counters, attempts and provider state reconcile within one ledger. */
  ghost predicate Valid(s: Snapshot) {
    && DistinctNames(s.periods, NameOf) && DistinctAttempts(s.attempts)
    && (forall a :: a in s.attempts ==> AttemptOk(a) && HasPeriod(s.periods, a.period))
    && (forall p :: p in s.periods ==> PeriodOk(p) && p.reserved == Count(s.attempts, p.name))
    && |s.provider| <= 1 && (forall p :: p in s.provider ==> ProviderOk(p))
    && |s.rate| <= 1 && (forall r :: r in s.rate ==> RateOk(r))
  }

  ghost function IdsIn(attempts: seq<Attempt>): set<nat> { set a | a in attempts :: a.id }

  ghost function KeysIn(attempts: seq<Attempt>): set<nat> { set a | a in attempts :: a.requestKey }

  lemma OneMoreAttempt(attempts: seq<Attempt>, i: nat)
    requires i < |attempts|
    ensures IdsIn(attempts[..i + 1]) == IdsIn(attempts[..i]) + {attempts[i].id}
    ensures KeysIn(attempts[..i + 1]) == KeysIn(attempts[..i]) + {attempts[i].requestKey}
    ensures DistinctAttempts(attempts[..i + 1]) <==>
      && DistinctAttempts(attempts[..i])
      && attempts[i].id !in IdsIn(attempts[..i]) && attempts[i].requestKey !in KeysIn(attempts[..i])
  {
    var now, more := attempts[..i], attempts[..i + 1];
    assert more == now + [attempts[i]];
    if DistinctAttempts(more) {
      forall a | a in now ensures a.id != attempts[i].id && a.requestKey != attempts[i].requestKey {
        var j :| 0 <= j < i && now[j] == a;
        assert more[j].id != more[i].id && more[j].requestKey != more[i].requestKey;
      }
      assert forall j, k :: 0 <= j < k < i ==> now[j] == more[j] && now[k] == more[k];
    }
    if DistinctAttempts(now) && attempts[i].id !in IdsIn(now) && attempts[i].requestKey !in KeysIn(now) {
      assert forall j :: 0 <= j < i ==> more[j] == now[j] && now[j] in now;
    }
  }

  lemma DistinctPrefix(attempts: seq<Attempt>, i: nat)
    requires i <= |attempts|
    ensures DistinctAttempts(attempts) ==> DistinctAttempts(attempts[..i])
  {
  }

  lemma OneMoreCounted(attempts: seq<Attempt>, i: nat, n: nat)
    requires i < |attempts|
    ensures Count(attempts[..i + 1], n) == Count(attempts[..i], n) + if attempts[i].period == n then 1 else 0
  {
    assert attempts[..i + 1][..i] == attempts[..i];
  }

  /** Identities and columns of every attempt. */
  method CheckAttempts(attempts: seq<Attempt>, names: set<nat>) returns (ok: bool)
    ensures ok <==> DistinctAttempts(attempts) && forall a :: a in attempts ==> AttemptOk(a) && a.period in names
  {
    var ids: set<nat> := {};
    var requestKeys: set<nat> := {};
    for i := 0 to |attempts|
      invariant forall a :: a in attempts[..i] ==> AttemptOk(a) && a.period in names
      invariant DistinctAttempts(attempts[..i])
      invariant ids == IdsIn(attempts[..i]) && requestKeys == KeysIn(attempts[..i])
    {
      var a := attempts[i];
      OneMoreAttempt(attempts, i);
      DistinctPrefix(attempts, i + 1);
      assert attempts[..i + 1] == attempts[..i] + [a] && a in attempts;
      if !AttemptOk(a) || a.period !in names || a.id in ids || a.requestKey in requestKeys { return false; }
      ids, requestKeys := ids + {a.id}, requestKeys + {a.requestKey};
    }
    assert attempts[..|attempts|] == attempts;
    ok := true;
  }

  method CountPeriods(attempts: seq<Attempt>, names: set<nat>) returns (counts: map<nat, nat>)
    requires forall a :: a in attempts ==> a.period in names
    ensures counts.Keys == names && forall n :: n in names ==> counts[n] == Count(attempts, n)
  {
    counts := map n | n in names :: 0;
    for i := 0 to |attempts|
      invariant counts.Keys == names && forall n :: n in names ==> counts[n] == Count(attempts[..i], n)
    {
      assert attempts[i] in attempts;
      forall n ensures Count(attempts[..i + 1], n) ==
        Count(attempts[..i], n) + if attempts[i].period == n then 1 else 0
      {
        OneMoreCounted(attempts, i, n);
      }
      counts := counts[attempts[i].period := counts[attempts[i].period] + 1];
    }
    assert attempts[..|attempts|] == attempts;
  }

  method ValidatePeriods(periods: seq<Period>, counts: map<nat, nat>) returns (ok: bool)
    requires forall p :: p in periods ==> p.name in counts
    ensures ok <==> forall p :: p in periods ==> PeriodOk(p) && p.reserved == counts[p.name]
  {
    for i := 0 to |periods|
      invariant forall j :: 0 <= j < i ==> PeriodOk(periods[j]) && periods[j].reserved == counts[periods[j].name]
    {
      assert periods[i] in periods;
      if !PeriodOk(periods[i]) || periods[i].reserved != counts[periods[i].name] { return false; }
    }
    ok := true;
  }

  method Validate(s: Snapshot) returns (ok: bool)
    ensures ok <==> Valid(s)
  {
    var distinct, names := CollectNames(s.periods, NameOf);
    if !distinct { return false; }
    var attemptsOk := CheckAttempts(s.attempts, names);
    assert forall n :: n in names <==> HasPeriod(s.periods, n);
    if !attemptsOk { return false; }
    var counts := CountPeriods(s.attempts, names);
    var periodsOk := ValidatePeriods(s.periods, counts);
    if !periodsOk { return false; }
    ok := |s.provider| <= 1 && (forall p :: p in s.provider ==> ProviderOk(p))
      && |s.rate| <= 1 && (forall r :: r in s.rate ==> RateOk(r));
  }

  // ---------------------------------------------------------------- the merge

  function AttemptsOf(s: Snapshot): seq<Attempt> { s.attempts }

  function PeriodsOf(s: Snapshot): seq<Period> { s.periods }

  function ProvidersOf(s: Snapshot): seq<Provider> { s.provider }

  function RatesOf(s: Snapshot): seq<Rate> { s.rate }

  function AllAttempts(ss: seq<Snapshot>): seq<Attempt> { Gather(AttemptsOf, ss) }

  function AllPeriods(ss: seq<Snapshot>): seq<Period> { Gather(PeriodsOf, ss) }

  /** The creation and update stamps of one period name, in source order. */
  function CreatedOf(name: nat): Snapshot -> seq<Stamp> { StampsOf(PeriodsOf, NameOf, CreationOf, name) }

  function UpdatedOf(name: nat): Snapshot -> seq<Stamp> { StampsOf(PeriodsOf, NameOf, UpdateOf, name) }

  /** A provider without a back-off counts as blocked until the first instant. */
  function ProviderRank(p: Provider): Rank {
    (if p.blockedUntil.None? then 0 else Instant(p.blockedUntil.value), Instant(p.updated))
  }

  function RateRank(r: Rate): Rank { (Instant(r.nextCall), Instant(r.updated)) }

  /** Two rows with one id are one row, and a request key has one id. */
  ghost predicate Consistent(attempts: seq<Attempt>) {
    forall a, b | a in attempts && b in attempts ::
      (a.id == b.id ==> a == b) && (a.requestKey == b.requestKey ==> a.id == b.id)
  }

  ghost function InPeriod(attempts: seq<Attempt>, name: nat): set<Attempt> {
    set a | a in attempts && a.period == name
  }

  /** Each configured ceiling, or the reviewed one in its place. */
  ghost predicate AllowsLimit(ss: seq<Snapshot>, approved: Option<int>, name: nat, limit: int) {
    if approved.Some? then limit == approved.value else LimitOf(AllPeriods(ss), NameOf, CeilingOf, name, limit)
  }

  /** The ceiling of a period, if there is one, is positive and holds its merged attempts. */
  ghost predicate CeilingHolds(ss: seq<Snapshot>, approved: Option<int>, name: nat) {
    exists limit :: AllowsLimit(ss, approved, name, limit) && limit > 0 && |InPeriod(AllAttempts(ss), name)| <= limit
  }

  /** When the merge is not refused. */
  ghost predicate Mergeable(ss: seq<Snapshot>, approved: Option<int>) {
    && (forall s :: s in ss ==> Valid(s))
    && Consistent(AllAttempts(ss))
    && forall p :: p in AllPeriods(ss) ==> CeilingHolds(ss, approved, p.name)
  }

  ghost predicate SortedById(attempts: seq<Attempt>) {
    forall i, j :: 0 <= i < j < |attempts| ==> attempts[i].id < attempts[j].id
  }

  /** The row the merge writes for one period name. */
  ghost predicate MergedPeriod(ss: seq<Snapshot>, approved: Option<int>, p: Period) {
    && HasPeriod(AllPeriods(ss), p.name)
    && AllowsLimit(ss, approved, p.name, p.limit)
    && p.reserved == |InPeriod(AllAttempts(ss), p.name)|
    && Pick(Earlier, Gather(CreatedOf(p.name), ss)) == Some(p.created)
    && Pick(Later, Gather(UpdatedOf(p.name), ss)) == Some(p.updated)
  }

  /** `_merge`: every attempt once, one row per period, the strictest back-off and rate. */
  ghost predicate IsMerge(ss: seq<Snapshot>, approved: Option<int>, out: Snapshot) {
    && SortedById(out.attempts) && (forall a :: a in out.attempts <==> a in AllAttempts(ss))
    && SortedByName(out.periods, NameOf) && MergedPeriods(ss, approved, out.periods)
    && MergedState(ss, out)
  }

  ghost predicate MergedPeriods(ss: seq<Snapshot>, approved: Option<int>, periods: seq<Period>) {
    && (forall p {:trigger HasPeriod(periods, p.name)} :: p in AllPeriods(ss) ==> HasPeriod(periods, p.name))
    && (forall p :: p in periods ==> MergedPeriod(ss, approved, p))
  }

  ghost predicate MergedState(ss: seq<Snapshot>, out: Snapshot) {
    && out.provider == AsSeq(Pick(ProviderRank, Gather(ProvidersOf, ss)))
    && out.rate == AsSeq(Pick(RateRank, Gather(RatesOf, ss)))
    && (out.reconcile <==> AnyFlag(ss))
  }

  ghost predicate AnyFlag(ss: seq<Snapshot>) { exists s :: s in ss && s.reconcile }

  // ---------------------------------------------------------------- the loops

  function IdOf(a: Attempt): nat { a.id }

  /** The attempts by id, or a refusal of conflicting histories. */
  method CollectAttempts(attempts: seq<Attempt>) returns (ok: bool, byId: map<nat, Attempt>)
    ensures ok <==> Consistent(attempts)
    ensures ok ==> forall a: Attempt :: a.id in byId && byId[a.id] == a <==> a in attempts
    ensures ok ==> forall i :: i in byId ==> byId[i].id == i
  {
    byId := map[];
    var requestToId: map<nat, nat> := map[];
    for i := 0 to |attempts|
      invariant forall k :: k in byId ==> byId[k].id == k && byId[k] in attempts[..i]
      invariant forall j :: 0 <= j < i ==> attempts[j].id in byId && byId[attempts[j].id] == attempts[j]
      invariant forall j :: 0 <= j < i ==>
        attempts[j].requestKey in requestToId && requestToId[attempts[j].requestKey] == attempts[j].id
      invariant forall r :: r in requestToId ==>
        requestToId[r] in byId && byId[requestToId[r]].requestKey == r
    {
      var a := attempts[i];
      assert attempts[..i + 1] == attempts[..i] + [a];
      if a.id in byId && byId[a.id] != a { return false, byId; }
      if a.requestKey in requestToId && requestToId[a.requestKey] != a.id {
        assert byId[requestToId[a.requestKey]] in attempts;
        return false, byId;
      }
      byId := byId[a.id := a];
      requestToId := requestToId[a.requestKey := a.id];
    }
    assert attempts[..|attempts|] == attempts;
    ok := true;
  }

  method SortAttempts(byId: map<nat, Attempt>) returns (attempts: seq<Attempt>)
    requires forall i :: i in byId ==> byId[i].id == i
    ensures SortedById(attempts)
    ensures forall a :: a in attempts <==> a.id in byId && byId[a.id] == a
  {
    attempts := [];
    var todo := byId.Keys;
    while todo != {}
      invariant todo <= byId.Keys && ShardedRows.SortedBy(attempts, IdOf)
      invariant forall a :: a in attempts <==> a.id in byId.Keys - todo && byId[a.id] == a
      decreases todo
    {
      var id :| id in todo;
      ShardedRows.InsertKeepsSorted(attempts, byId[id], IdOf);
      attempts := ShardedRows.Insert(attempts, byId[id], IdOf);
      todo := todo - {id};
    }
    forall i, j | 0 <= i < j < |attempts| ensures attempts[i].id < attempts[j].id {
      assert IdOf(attempts[i]) < IdOf(attempts[j]);
    }
  }

  lemma OneMoreInPeriod(attempts: seq<Attempt>, i: nat, name: nat)
    requires SortedById(attempts) && i < |attempts|
    ensures |InPeriod(attempts[..i + 1], name)| ==
      |InPeriod(attempts[..i], name)| + if attempts[i].period == name then 1 else 0
  {
    var now, more, a := attempts[..i], attempts[..i + 1], attempts[i];
    assert more == now + [a];
    if a.period == name {
      assert a !in now;
      assert InPeriod(more, name) == InPeriod(now, name) + {a};
    } else {
      assert InPeriod(more, name) == InPeriod(now, name);
    }
  }

  method CountAttempts(attempts: seq<Attempt>, name: nat) returns (count: nat)
    requires SortedById(attempts)
    ensures count == |InPeriod(attempts, name)|
  {
    count := 0;
    for i := 0 to |attempts|
      invariant count == |InPeriod(attempts[..i], name)|
    {
      OneMoreInPeriod(attempts, i, name);
      if attempts[i].period == name { count := count + 1; }
    }
    assert attempts[..|attempts|] == attempts;
  }

  /** One merged period, or a refusal of its ceiling. */
  method MergePeriod(ss: seq<Snapshot>, approved: Option<int>, attempts: seq<Attempt>, name: nat)
    returns (row: Option<Period>)
    requires SortedById(attempts) && forall a :: a in attempts <==> a in AllAttempts(ss)
    requires HasPeriod(AllPeriods(ss), name)
    ensures row.Some? <==> CeilingHolds(ss, approved, name)
    ensures row.Some? ==> row.value.name == name && MergedPeriod(ss, approved, row.value)
  {
    var limit := approved;
    if approved.None? { limit := AgreedLimit(AllPeriods(ss), NameOf, CeilingOf, name); }
    LimitUnique(ss, approved, name);
    if limit.None? { return None; }
    assert AllowsLimit(ss, approved, name, limit.value);
    if limit.value <= 0 { return None; }
    var reserved := CountAttempts(attempts, name);
    assert InPeriod(attempts, name) == InPeriod(AllAttempts(ss), name);
    if reserved > limit.value { return None; }
    var created := PickRow(Earlier, Gather(CreatedOf(name), ss));
    var updated := PickRow(Later, Gather(UpdatedOf(name), ss));
    NamedStamps(ss, name);
    row := Some(Period(name, limit.value, reserved, created.value, updated.value));
  }

  lemma LimitUnique(ss: seq<Snapshot>, approved: Option<int>, name: nat)
    ensures forall a, b :: AllowsLimit(ss, approved, name, a) && AllowsLimit(ss, approved, name, b) ==> a == b
  {
  }

  lemma NamedStamps(ss: seq<Snapshot>, name: nat)
    requires HasPeriod(AllPeriods(ss), name)
    ensures Pick(Earlier, Gather(CreatedOf(name), ss)).Some?
    ensures Pick(Later, Gather(UpdatedOf(name), ss)).Some?
  {
    GatheredStamps(ss, PeriodsOf, NameOf, CreationOf, name);
    GatheredStamps(ss, PeriodsOf, NameOf, UpdateOf, name);
    PickDominates(Earlier, Gather(CreatedOf(name), ss));
    PickDominates(Later, Gather(UpdatedOf(name), ss));
  }

  ghost function FineRow(ss: seq<Snapshot>, approved: Option<int>): Period -> bool {
    p => MergedPeriod(ss, approved, p)
  }

  /** Every merged period by name, or a refusal when some ceiling does not hold. */
  method MergePeriods(ss: seq<Snapshot>, approved: Option<int>, attempts: seq<Attempt>)
    returns (ok: bool, periods: seq<Period>)
    requires SortedById(attempts) && forall a :: a in attempts <==> a in AllAttempts(ss)
    ensures ok <==> forall p :: p in AllPeriods(ss) ==> CeilingHolds(ss, approved, p.name)
    ensures ok ==> Covers(periods, NameOf, set p | p in AllPeriods(ss) :: p.name, FineRow(ss, approved))
  {
    periods := [];
    ghost var fine := FineRow(ss, approved);
    var names := set p | p in AllPeriods(ss) :: p.name;
    var todo := names;
    while todo != {}
      invariant todo <= names && Covers(periods, NameOf, names - todo, fine)
      invariant forall n :: n in names - todo ==> CeilingHolds(ss, approved, n)
      decreases todo
    {
      var name :| name in todo;
      var row := MergePeriod(ss, approved, attempts, name);
      if row.None? { return false, periods; }
      RowAdded(periods, NameOf, row.value, names - todo, fine);
      periods := ShardedRows.Insert(periods, row.value, NameOf);
      assert names - todo + {name} == names - (todo - {name});
      todo := todo - {name};
    }
    assert names - todo == names;
    ok := true;
  }

  lemma CoveredPeriods(ss: seq<Snapshot>, approved: Option<int>, periods: seq<Period>)
    requires Covers(periods, NameOf, set p | p in AllPeriods(ss) :: p.name, FineRow(ss, approved))
    ensures SortedByName(periods, NameOf)
    ensures forall p :: p in AllPeriods(ss) ==> HasPeriod(periods, p.name)
    ensures forall p :: p in periods ==> MergedPeriod(ss, approved, p)
  {
    forall i, j | 0 <= i < j < |periods| ensures periods[i].name < periods[j].name {
      assert NameOf(periods[i]) < NameOf(periods[j]);
    }
    forall p | p in periods ensures MergedPeriod(ss, approved, p) {
      assert FineRow(ss, approved)(p);
    }
  }

  method ValidateAll(ss: seq<Snapshot>) returns (ok: bool)
    ensures ok <==> forall s :: s in ss ==> Valid(s)
  {
    for i := 0 to |ss|
      invariant forall j :: 0 <= j < i ==> Valid(ss[j])
    {
      assert ss[i] in ss;
      var valid := Validate(ss[i]);
      if !valid { return false; }
    }
    ok := true;
  }

  /** `_merge`. */
  method Merge(ss: seq<Snapshot>, approved: Option<int>) returns (out: Option<Snapshot>)
    ensures out.Some? <==> Mergeable(ss, approved)
    ensures out.Some? ==> IsMerge(ss, approved, out.value)
  {
    var valid := ValidateAll(ss);
    if !valid { return None; }
    var consistent, byId := CollectAttempts(AllAttempts(ss));
    if !consistent { return None; }
    var attempts := SortAttempts(byId);
    var fits, periods := MergePeriods(ss, approved, attempts);
    assert fits <==> Mergeable(ss, approved);
    if !fits { return None; }
    CoveredPeriods(ss, approved, periods);
    var provider := PickRow(ProviderRank, Gather(ProvidersOf, ss));
    var rate := PickRow(RateRank, Gather(RatesOf, ss));
    out := Some(Snapshot(periods, attempts, AsSeq(provider), AsSeq(rate), exists s :: s in ss && s.reconcile));
  }
}
