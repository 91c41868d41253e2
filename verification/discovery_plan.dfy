/**
 Planning a batch: one pending checkpoint for each selected target, under a manifest that
 names exactly them.
 */
module DiscoveryPlan {
  import opened Options
  import opened DiscoveryModels
  import opened DiscoveryStore
  import opened FirstBest
  import opened StableSort
  import opened ShardedRows

  const QUERY_TEMPLATE := "rfp-grants-v1"

  function Qualifier(n: Namespace): Option<string> {
    match n
    case County => Some("county")
    case SchoolDistrict => Some("school district")
    case IncorporatedPlace => Some("municipal city town")
    case UnknownNamespace(_) => None
  }

  /** `build_query`; an unknown namespace is an error. */
  function BuildQuery(t: Target): Option<string> {
    match Qualifier(t.namespace)
    case None => None
    case Some(q) =>
      Some("\"" + t.entityName + "\" \"" + t.state + "\" " + q
           + " procurement bids RFP contract awards grant awards funding official")
  }

  datatype Bounds = Bounds(resultLimit: int, requestsPerMinute: int, maxAttempts: int)

  function Named(targets: seq<Target>, n: Namespace): (named: seq<Namespace>)
    ensures |named| <= 1 && forall x :: x in named <==> x == n && exists t :: t in targets && t.namespace == n
  {
    if exists t :: t in targets && t.namespace == n then [n] else []
  }

  /** The namespaces of the targets, in their fixed order. */
  function NamespacesIn(targets: seq<Target>): seq<Namespace> {
    Named(targets, County) + Named(targets, SchoolDistrict) + Named(targets, IncorporatedPlace)
  }

  /** The states of the targets, each once, sorted. */
  function StatesIn(targets: seq<Target>): (states: seq<string>)
    ensures forall s :: s in states <==> exists t :: t in targets && t.state == s
  {
    if targets == [] then []
    else
      assert targets == [targets[0]] + targets[1..];
      var rest := StatesIn(targets[1..]);
      if targets[0].state in rest then rest else Insert(rest, targets[0].state, StateRank)
  }

  lemma {:induction false} StatesInSorted(targets: seq<Target>)
    requires forall t :: t in targets ==> UpperPair(t.state)
    ensures StatesSorted(StatesIn(targets))
  {
    if targets != [] {
      var rest := StatesIn(targets[1..]);
      StatesInSorted(targets[1..]);
      if targets[0].state !in rest {
        forall s | s in rest ensures StateRank(s) != StateRank(targets[0].state) {
          var t :| t in targets[1..] && t.state == s;
          RanksTellApart(s, targets[0].state);
        }
        InsertKeepsSorted(rest, targets[0].state, StateRank);
      }
    }
  }

  lemma RanksTellApart(a: string, b: string)
    requires UpperPair(a) && UpperPair(b) && a != b
    ensures StateRank(a) != StateRank(b)
  {
    assert a[0] != b[0] || a[1] != b[1];
  }

  lemma NamespacesInCover(targets: seq<Target>)
    requires forall t :: t in targets ==> !t.namespace.UnknownNamespace?
    ensures NoRepeats(NamespacesIn(targets))
    ensures forall n :: n in NamespacesIn(targets) <==> exists t :: t in targets && t.namespace == n
  {
  }

  /** The manifest `plan_batch` writes for these tasks. */
  function Draft(batchId: string, created: Stamp, seed: string, b: Bounds, targets: seq<Target>, ids: seq<Digest>)
    : Manifest
  {
    Manifest(CURRENT_SCHEMA, batchId, created, QUERY_TEMPLATE, seed,
             NamespacesIn(targets), StatesIn(targets),
             |targets|, b.resultLimit, b.requestsPerMinute, b.maxAttempts, ids)
  }

  /** The part of the manifest a task id depends on. */
  function Heading(batchId: string, b: Bounds): Manifest {
    Draft(batchId, Blank, "", b, [], [])
  }

  function PlannedId(h: Hashes, batchId: string, b: Bounds, t: Target): Option<Digest> {
    match BuildQuery(t)
    case None => None
    case Some(query) => TaskId(h, Heading(batchId, b), t, query)
  }

  /** What a caller must bring for a plan to be accepted. */
  ghost predicate Plannable(
    h: Hashes, targets: seq<Target>, batchId: string, created: Stamp, seed: string, b: Bounds)
  {
    && 1 <= |targets| <= 100
    && (forall t :: t in targets ==>
          ValidTarget(t) && t.entityName != "" && t.entityKind != "" && t.universeVintage != "")
    && (forall i, j :: 0 <= i < j < |targets| ==>
          PlannedId(h, batchId, b, targets[i]) != PlannedId(h, batchId, b, targets[j]))
    && ValidBatchId(batchId) && created.Second? && seed != ""
    && 1 <= b.resultLimit <= 5 && 1 <= b.requestsPerMinute <= 60 && 1 <= b.maxAttempts <= 3
  }

  function ByValue(d: Digest): Rank { (d, 0) }

  /** `sorted` over digests. */
  function SortedIds(ids: seq<Digest>): (out: seq<Digest>)
    ensures multiset(out) == multiset(ids)
  {
    Sort(ByValue, ids)
  }

  ghost predicate Distinct(ids: seq<Digest>) { forall i, j :: 0 <= i < j < |ids| ==> ids[i] != ids[j] }

  /** Sorting gives a strictly ascending list exactly when nothing repeats. */
  lemma SortedStrictly(ids: seq<Digest>)
    ensures StrictlySorted(SortedIds(ids)) <==> Distinct(ids)
  {
    var out := SortedIds(ids);
    SortSorted(ByValue, ids);
    if StrictlySorted(out) {
      assert DistinctBy(ByValue, out);
      PermutedDistinct(ByValue, out, ids);
      assert forall i, j :: 0 <= i < j < |ids| ==> ByValue(ids[i]) != ByValue(ids[j]);
    }
    if Distinct(ids) {
      forall i, j | 0 <= i < j < |ids| ensures ByValue(ids[i]) != ByValue(ids[j]) {}
      PermutedDistinct(ByValue, ids, out);
      forall i, j | 0 <= i < j < |out| ensures out[i] < out[j] {
        assert !Below(ByValue(out[j]), ByValue(out[i])) && ByValue(out[i]) != ByValue(out[j]);
      }
    }
  }

  function QueryOf(t: Target): string
    requires !t.namespace.UnknownNamespace?
  {
    BuildQuery(t).value
  }

  /** The pending checkpoint of a target whose id is known. */
  function PendingTask(h: Hashes, b: Bounds, t: Target, id: Digest): Checkpoint
    requires !t.namespace.UnknownNamespace?
  {
    Checkpoint(id, t, QueryOf(t), RequestHash(h, QueryOf(t), b.resultLimit), [], Pending)
  }

  /** It is the checkpoint `new_checkpoint` makes under the planned manifest. */
  lemma PendingIsNew(h: Hashes, m: Manifest, b: Bounds, t: Target, id: Digest)
    requires m.schema == CURRENT_SCHEMA && m.templateId == QUERY_TEMPLATE && m.resultLimit == b.resultLimit
    requires PlannedId(h, m.batchId, b, t) == Some(id)
    ensures !t.namespace.UnknownNamespace?
    ensures NewCheckpoint(h, m, t, QueryOf(t)) == Some(PendingTask(h, b, t, id))
  {
    KnownNamespace(h, m.batchId, b, t);
  }

  /** The ids of all targets, or None as soon as one cannot be built. */
  method PlannedIds(h: Hashes, batchId: string, b: Bounds, targets: seq<Target>) returns (ids: Option<seq<Digest>>)
    ensures ids.Some? <==> forall t :: t in targets ==> PlannedId(h, batchId, b, t).Some?
    ensures ids.Some? ==> |ids.value| == |targets|
    ensures ids.Some? ==> forall i :: 0 <= i < |targets| ==> PlannedId(h, batchId, b, targets[i]) == Some(ids.value[i])
  {
    var built: seq<Digest> := [];
    for i := 0 to |targets|
      invariant |built| == i
      invariant forall j :: 0 <= j < i ==> PlannedId(h, batchId, b, targets[j]) == Some(built[j])
    {
      var id := PlannedId(h, batchId, b, targets[i]);
      if id.None? { return None; }
      built := built + [id.value];
    }
    ids := Some(built);
  }

  lemma KnownNamespace(h: Hashes, batchId: string, b: Bounds, t: Target)
    requires PlannedId(h, batchId, b, t).Some?
    ensures !t.namespace.UnknownNamespace?
    ensures t.state != "" && t.entityName != "" && t.entityKind != "" && t.universeVintage != ""
  {
  }

  /** One pending checkpoint per target, in order. */
  ghost predicate Pendings(h: Hashes, b: Bounds, targets: seq<Target>, ids: seq<Digest>, cs: seq<Checkpoint>) {
    && |ids| == |targets| == |cs|
    && (forall i :: 0 <= i < |targets| ==> !targets[i].namespace.UnknownNamespace?)
    && forall i :: 0 <= i < |targets| ==> cs[i] == PendingTask(h, b, targets[i], ids[i])
  }

  method PendingTasks(h: Hashes, batchId: string, b: Bounds, targets: seq<Target>, ids: seq<Digest>)
    returns (cs: seq<Checkpoint>)
    requires |ids| == |targets|
    requires forall i :: 0 <= i < |targets| ==> PlannedId(h, batchId, b, targets[i]) == Some(ids[i])
    ensures Pendings(h, b, targets, ids, cs)
  {
    forall i | 0 <= i < |targets| ensures !targets[i].namespace.UnknownNamespace? {
      KnownNamespace(h, batchId, b, targets[i]);
    }
    cs := seq(|targets|, i requires 0 <= i < |targets| => PendingTask(h, b, targets[i], ids[i]));
  }

  /** `plan_batch`: accepted exactly when the targets and bounds are, and then one pending checkpoint
      per target, in order, in a valid batch. */
  method PlanBatch(h: Hashes, targets: seq<Target>, batchId: string, created: Stamp, seed: string, b: Bounds)
    returns (plan: Option<(Manifest, seq<Checkpoint>)>, ghost ids: seq<Digest>)
    ensures plan.Some? <==> Plannable(h, targets, batchId, created, seed, b)
    ensures plan.Some? ==> ValidBatch(h, plan.value.0, plan.value.1)
    ensures plan.Some? ==> plan.value.0 == Draft(batchId, created, seed, b, targets, SortedIds(ids))
    ensures plan.Some? ==> Pendings(h, b, targets, ids, plan.value.1)
  {
    ids := [];
    if targets == [] { return None, ids; }
    var built := PlannedIds(h, batchId, b, targets);
    PlannableIds(h, targets, batchId, created, seed, b);
    if built.None? { return None, ids; }
    ids := built.value;
    var m := Draft(batchId, created, seed, b, targets, SortedIds(built.value));
    var cs := PendingTasks(h, batchId, b, targets, built.value);
    var valid := ValidateBatch(h, m, cs);
    PlannedBatchValid(h, targets, batchId, created, seed, b, ids, cs);
    plan := if valid then Some((m, cs)) else None;
  }

  lemma PlannableIds(h: Hashes, targets: seq<Target>, batchId: string, created: Stamp, seed: string, b: Bounds)
    ensures Plannable(h, targets, batchId, created, seed, b) ==>
      forall t :: t in targets ==> PlannedId(h, batchId, b, t).Some?
  {
  }

  lemma QueryIsNotEmpty(t: Target)
    requires !t.namespace.UnknownNamespace?
    ensures QueryOf(t) != ""
  {
    assert QueryOf(t)[0] == '"';
  }

  lemma PlannedTaskId(h: Hashes, m: Manifest, batchId: string, b: Bounds, t: Target, id: Digest)
    requires m.schema == CURRENT_SCHEMA && m.batchId == batchId && m.templateId == QUERY_TEMPLATE
    requires m.resultLimit == b.resultLimit
    requires PlannedId(h, batchId, b, t) == Some(id) && !t.namespace.UnknownNamespace?
    ensures TaskId(h, m, t, QueryOf(t)) == Some(id)
  {
    assert BuildQuery(t) == Some(QueryOf(t));
  }

  lemma PendingIsValid(h: Hashes, b: Bounds, t: Target, id: Digest)
    requires !t.namespace.UnknownNamespace?
    ensures ValidCheckpoint(h, PendingTask(h, b, t, id)) <==> ValidTarget(t)
  {
    QueryIsNotEmpty(t);
  }

  lemma MemberPlanned(h: Hashes, m: Manifest, batchId: string, b: Bounds, t: Target, id: Digest)
    requires m.schema == CURRENT_SCHEMA && m.batchId == batchId && m.templateId == QUERY_TEMPLATE
    requires m.resultLimit == b.resultLimit && m.maxAttempts == b.maxAttempts >= 0
    requires PlannedId(h, batchId, b, t) == Some(id) && !t.namespace.UnknownNamespace?
    ensures Member(h, m)(PendingTask(h, b, t, id)) <==> ValidTarget(t)
  {
    PlannedTaskId(h, m, batchId, b, t, id);
    PendingIsValid(h, b, t, id);
  }

  ghost predicate HeadingValid(batchId: string, created: Stamp, seed: string, b: Bounds) {
    && ValidBatchId(batchId) && created.Second? && seed != ""
    && 1 <= b.resultLimit <= 5 && 1 <= b.requestsPerMinute <= 60 && 1 <= b.maxAttempts <= 3
  }

  lemma TargetsCovered(targets: seq<Target>)
    requires targets != [] && forall t :: t in targets ==> !t.namespace.UnknownNamespace?
    ensures var namespaces := NamespacesIn(targets);
      namespaces != [] && (forall n :: n in namespaces ==> !n.UnknownNamespace?) && NoRepeats(namespaces)
    ensures var states := StatesIn(targets);
      && states != []
      && ((forall s :: s in states ==> UpperPair(s)) && StatesSorted(states) <==>
          forall t :: t in targets ==> UpperPair(t.state))
  {
    NamespacesInCover(targets);
    assert targets[0].namespace in NamespacesIn(targets) && targets[0].state in StatesIn(targets);
    if forall s :: s in StatesIn(targets) ==> UpperPair(s) {
      forall t | t in targets ensures UpperPair(t.state) { assert t.state in StatesIn(targets); }
    }
    if forall t :: t in targets ==> UpperPair(t.state) { StatesInSorted(targets); }
  }

  lemma SortedSize(ids: seq<Digest>)
    ensures |SortedIds(ids)| == |ids|
  {
    assert |SortedIds(ids)| == |multiset(SortedIds(ids))| == |multiset(ids)|;
  }

  lemma ManifestPlanned(
    batchId: string, created: Stamp, seed: string, b: Bounds, targets: seq<Target>, ids: seq<Digest>)
    requires |ids| == |targets| > 0
    requires forall i :: 0 <= i < |targets| ==> !targets[i].namespace.UnknownNamespace?
    ensures ValidManifest(Draft(batchId, created, seed, b, targets, SortedIds(ids))) <==>
      && HeadingValid(batchId, created, seed, b) && |targets| <= 100 && Distinct(ids)
      && forall t :: t in targets ==> UpperPair(t.state)
  {
    SortedStrictly(ids);
    SortedSize(ids);
    TargetsCovered(targets);
  }

  lemma {:induction false} ListPlanned(
    m: Manifest, targets: seq<Target>, ids: seq<Digest>, cs: seq<Checkpoint>, good: Checkpoint -> bool)
    requires |ids| == |targets| == |cs| && m.fingerprints == SortedIds(ids)
    requires forall i :: 0 <= i < |targets| ==> cs[i].taskId == ids[i] && cs[i].target == targets[i]
    requires forall i :: 0 <= i < |targets| ==> (good(cs[i]) <==> ValidTarget(targets[i]))
    requires m.namespaces == NamespacesIn(targets) && m.states == StatesIn(targets)
    requires forall t :: t in targets ==> !t.namespace.UnknownNamespace?
    ensures ListValid(m, cs, good) <==> forall t :: t in targets ==> ValidTarget(t)
  {
    assert Ids(cs) == ids;
    forall t | t in targets ensures exists c :: c in cs && c.target == t {
      var i :| 0 <= i < |targets| && targets[i] == t;
      assert cs[i] in cs;
    }
    forall c | c in cs ensures c.target in targets && (good(c) <==> ValidTarget(c.target)) {
      var i :| 0 <= i < |cs| && cs[i] == c;
    }
    NamespacesInCover(targets);
    assert NamespacesOf(cs) == NamedNamespaces(m);
    assert StatesOf(cs) == NamedStates(m);
  }

  /** Under the planned manifest, the checkpoints are judged as their targets are. */
  lemma JudgedAlike(
    h: Hashes, m: Manifest, targets: seq<Target>, batchId: string, b: Bounds, ids: seq<Digest>, cs: seq<Checkpoint>)
    requires m.schema == CURRENT_SCHEMA && m.batchId == batchId && m.templateId == QUERY_TEMPLATE
    requires m.resultLimit == b.resultLimit && m.maxAttempts == b.maxAttempts >= 0
    requires m.fingerprints == SortedIds(ids)
    requires m.namespaces == NamespacesIn(targets) && m.states == StatesIn(targets)
    requires |ids| == |targets| == |cs|
    requires forall i :: 0 <= i < |targets| ==> PlannedId(h, batchId, b, targets[i]) == Some(ids[i])
    requires Pendings(h, b, targets, ids, cs)
    ensures ValidBatch(h, m, cs) <==> ValidManifest(m) && forall t :: t in targets ==> ValidTarget(t)
  {
    MembersPlanned(h, m, targets, batchId, b, ids, cs);
    ListPlanned(m, targets, ids, cs, Member(h, m));
  }

  /** The planned list is a valid batch exactly when the request is plannable. */
  lemma PlannedBatchValid(
    h: Hashes, targets: seq<Target>, batchId: string, created: Stamp, seed: string, b: Bounds,
    ids: seq<Digest>, cs: seq<Checkpoint>)
    requires |ids| == |targets| == |cs| > 0
    requires forall i :: 0 <= i < |targets| ==> PlannedId(h, batchId, b, targets[i]) == Some(ids[i])
    requires Pendings(h, b, targets, ids, cs)
    ensures ValidBatch(h, Draft(batchId, created, seed, b, targets, SortedIds(ids)), cs)
      <==> Plannable(h, targets, batchId, created, seed, b)
  {
    var m := Draft(batchId, created, seed, b, targets, SortedIds(ids));
    ghost var heading := HeadingValid(batchId, created, seed, b) && |targets| <= 100 && Distinct(ids);
    ghost var upper := forall t :: t in targets ==> UpperPair(t.state);
    ghost var valid := forall t :: t in targets ==> ValidTarget(t);
    ManifestPlanned(batchId, created, seed, b, targets, ids);
    assert ValidManifest(m) <==> heading && upper;
    PlannableMeans(h, targets, batchId, created, seed, b, ids);
    assert Plannable(h, targets, batchId, created, seed, b) <==> heading && valid;
    assert valid ==> upper;
    if heading { JudgedAlike(h, m, targets, batchId, b, ids, cs); }
  }

  lemma MembersPlanned(
    h: Hashes, m: Manifest, targets: seq<Target>, batchId: string, b: Bounds, ids: seq<Digest>, cs: seq<Checkpoint>)
    requires m.schema == CURRENT_SCHEMA && m.batchId == batchId && m.templateId == QUERY_TEMPLATE
    requires m.resultLimit == b.resultLimit && m.maxAttempts == b.maxAttempts >= 0
    requires |ids| == |targets| == |cs|
    requires forall i :: 0 <= i < |targets| ==> PlannedId(h, batchId, b, targets[i]) == Some(ids[i])
    requires Pendings(h, b, targets, ids, cs)
    ensures forall i :: 0 <= i < |targets| ==> (Member(h, m)(cs[i]) <==> ValidTarget(targets[i]))
  {
    forall i | 0 <= i < |targets| ensures Member(h, m)(cs[i]) <==> ValidTarget(targets[i]) {
      MemberPlanned(h, m, batchId, b, targets[i], ids[i]);
    }
  }

  lemma PlannableMeans(
    h: Hashes, targets: seq<Target>, batchId: string, created: Stamp, seed: string, b: Bounds, ids: seq<Digest>)
    requires |ids| == |targets| > 0
    requires forall i :: 0 <= i < |targets| ==> PlannedId(h, batchId, b, targets[i]) == Some(ids[i])
    ensures Plannable(h, targets, batchId, created, seed, b) <==>
      && HeadingValid(batchId, created, seed, b) && |targets| <= 100 && Distinct(ids)
      && forall t :: t in targets ==> ValidTarget(t)
  {
    forall t | t in targets ensures t.entityName != "" && t.entityKind != "" && t.universeVintage != "" {
      var i :| 0 <= i < |targets| && targets[i] == t;
      KnownNamespace(h, batchId, b, t);
    }
    forall i, j | 0 <= i < j < |ids|
      ensures ids[i] != ids[j] <==>
        PlannedId(h, batchId, b, targets[i]) != PlannedId(h, batchId, b, targets[j])
    {
    }
  }

  // ---------------------------------------------------------------- what a query asks for

  const QUERY_TAIL := " procurement bids RFP contract awards grant awards funding official"

  function QuotedName(t: Target): string { "\"" + t.entityName }

  function QuotedState(t: Target): string { "\" \"" + t.state + "\" " }

  lemma QueryShape(t: Target)
    requires !t.namespace.UnknownNamespace?
    ensures QueryOf(t) == QuotedName(t) + QuotedState(t) + (Qualifier(t.namespace).value + QUERY_TAIL)
  {
  }

  lemma PartsOfThree(a: string, b: string, c: string)
    ensures forall i :: 0 <= i < |a| ==> (a + b + c)[i] == a[i]
    ensures b != "" ==> (a + b + c)[|a|] == b[0]
  {
  }

  lemma SameParts(a: string, b: string, c: string, x: string, y: string, z: string)
    requires a + b + c == x + y + z && |a| == |x| && |b| == |y|
    ensures a == x && b == y && c == z
  {
    var s, n, k := a + b + c, |a|, |a| + |b|;
    assert a == s[..n] && b == s[n..k] && c == s[k..];
    assert x == (x + y + z)[..n] && y == (x + y + z)[n..k] && z == (x + y + z)[k..];
  }

  /** The first quotation mark after the opening one ends the name. */
  lemma NameEndsAtQuote(t: Target)
    requires ValidTarget(t) && '"' !in t.entityName
    ensures |QueryOf(t)| > |t.entityName| + 1 && QueryOf(t)[|t.entityName| + 1] == '"'
    ensures forall i :: 1 <= i <= |t.entityName| ==> QueryOf(t)[i] != '"'
  {
    QueryShape(t);
    PartsOfThree(QuotedName(t), QuotedState(t), Qualifier(t.namespace).value + QUERY_TAIL);
    forall i | 1 <= i <= |t.entityName| ensures QueryOf(t)[i] != '"' {
      assert QueryOf(t)[i] == QuotedName(t)[i] == t.entityName[i - 1];
      assert t.entityName[i - 1] in t.entityName;
    }
    assert QuotedState(t)[0] == '"';
  }

  /** Main result: two targets whose names hold no quotation mark get the same query only if they have the
      same name, the same state and the same kind of government. */
  lemma QueryNamesTheEntity(t: Target, u: Target)
    requires ValidTarget(t) && ValidTarget(u) && '"' !in t.entityName && '"' !in u.entityName
    requires QueryOf(t) == QueryOf(u)
    ensures t.entityName == u.entityName && t.state == u.state && t.namespace == u.namespace
  {
    NameEndsAtQuote(t);
    NameEndsAtQuote(u);
    assert |t.entityName| == |u.entityName|;
    QueryShape(t);
    QueryShape(u);
    SameParts(QuotedName(t), QuotedState(t), Qualifier(t.namespace).value + QUERY_TAIL,
              QuotedName(u), QuotedState(u), Qualifier(u.namespace).value + QUERY_TAIL);
    assert t.entityName == QuotedName(t)[1..] && u.entityName == QuotedName(u)[1..];
    assert t.state == QuotedState(t)[3..5] && u.state == QuotedState(u)[3..5];
    QualifiersApart(t.namespace, u.namespace);
  }

  lemma QualifiersApart(a: Namespace, b: Namespace)
    requires !a.UnknownNamespace? && !b.UnknownNamespace?
    requires Qualifier(a).value + QUERY_TAIL == Qualifier(b).value + QUERY_TAIL
    ensures a == b
  {
    var x, y := Qualifier(a).value, Qualifier(b).value;
    assert (x + QUERY_TAIL)[0] == x[0] && (y + QUERY_TAIL)[0] == y[0];
  }
}
