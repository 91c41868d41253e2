/**
 What the stored evidence of a batch vouches for: how much was paid at most, that it has not been
 altered, that an id names one task, and where each row lies.
 */
module DiscoveryEvidence {
  import opened Options
  import opened SetSums
  import opened DiscoveryModels
  import opened DiscoveryStore
  import opened DiscoveryHistory
  import opened DiscoveryGuarantees

  // ---------------------------------------------------------------- the budget of a batch

  function TotalCalls(events: seq<Event>): nat {
    if events == [] then 0
    else TotalCalls(events[..|events| - 1]) + if events[|events| - 1].Called? then 1 else 0
  }

  ghost function CallsOf(events: seq<Event>): Digest -> nat { id => Calls(events, id) }

  lemma {:induction false} SumIsTotal(events: seq<Event>, ids: set<Digest>)
    requires forall k :: 0 <= k < |events| && events[k].Called? ==> events[k].id in ids
    ensures TotalCalls(events) == SetSum(ids, CallsOf(events))
    decreases |events|
  {
    if events == [] {
      SumOfNothing(ids, CallsOf(events));
    } else {
      var most, e := events[..|events| - 1], events[|events| - 1];
      SumIsTotal(most, ids);
      if e.Called? {
        assert e.id in ids;
        SumWithout(ids, CallsOf(events), e.id);
        SumWithout(ids, CallsOf(most), e.id);
        SameSum(ids - {e.id}, CallsOf(events), CallsOf(most));
      } else {
        SameSum(ids, CallsOf(events), CallsOf(most));
      }
    }
  }

  lemma {:induction false} SumOfNothing<T(!new)>(s: set<T>, w: T -> nat)
    requires forall x :: x in s ==> w(x) == 0
    ensures SetSum(s, w) == 0
    decreases |s|
  {
    if s != {} {
      var x :| x in s;
      SumWithout(s, w, x);
      SumOfNothing(s - {x}, w);
    }
  }

  lemma {:induction false} SameSum<T(!new)>(s: set<T>, v: T -> nat, w: T -> nat)
    requires forall x :: x in s ==> v(x) == w(x)
    ensures SetSum(s, v) == SetSum(s, w)
    decreases |s|
  {
    if s != {} {
      var x :| x in s;
      SumWithout(s, v, x);
      SumWithout(s, w, x);
      SameSum(s - {x}, v, w);
    }
  }

  lemma {:induction false} SumAtMost<T(!new)>(s: set<T>, w: T -> nat, most: nat)
    requires forall x :: x in s ==> w(x) <= most
    ensures SetSum(s, w) <= |s| * most
    decreases |s|
  {
    if s != {} {
      var x :| x in s;
      SumWithout(s, w, x);
      SumAtMost(s - {x}, w, most);
      var n := |s - {x}|;
      assert |s| == n + 1;
      assert (n + 1) * most == n * most + most;
    }
  }

  lemma {:induction false} SizeOfListed<T(!new)>(s: seq<T>)
    ensures |Members(s)| <= |s|
  {
    if s != [] {
      SizeOfListed(s[1..]);
      assert Members(s) == {s[0]} + Members(s[1..]);
    }
  }

  lemma CalledIsStored(h: Hashes, m: Manifest, s: Machine, events: seq<Event>, k: nat)
    requires AtRest(h, m, s) && Possible(h, m, s, events) && k < |events| && events[k].Called?
    ensures events[k].id in s.tasks
  {
    RestingIsValid(h, m, s);
    CallIsPrepared(h, m, Member(h, m), s, events, k);
    ReachedExtends(h, m, Member(h, m), s, events, 0, k);
    assert events[..0] == [];
  }

  lemma SizeOfValid(m: Manifest, tasks: TaskTable, good: Checkpoint -> bool)
    requires ValidManifest(m) && TableValid(m, tasks, good)
    ensures |tasks| <= 100 && 1 <= m.maxAttempts <= 3
  {
    SizeOfListed(m.fingerprints);
    assert tasks.Keys == Members(m.fingerprints);
    assert |tasks| == |tasks.Keys|;
  }

  lemma BatchSize(h: Hashes, m: Manifest, s: Machine)
    requires AtRest(h, m, s)
    ensures |s.tasks| <= 100 && 1 <= m.maxAttempts <= 3
  {
    RestingIsValid(h, m, s);
    OpenTable(m, Member(h, m), s.tasks);
    SizeOfValid(m, s.tasks, Member(h, m));
  }

  lemma CallsWithin(h: Hashes, m: Manifest, s: Machine, events: seq<Event>, id: Digest)
    requires AtRest(h, m, s) && Possible(h, m, s, events) && id in s.tasks
    ensures CallsOf(events)(id) <= m.maxAttempts
  {
    CallBudget(h, m, s, events, id);
  }

  /** Main result: a batch pays for at most `max_attempts` searches for each of its tasks, over all runs and
      crashes together, and never for more than 300. */
  lemma BatchBudget(h: Hashes, m: Manifest, s: Machine, events: seq<Event>)
    requires AtRest(h, m, s) && Possible(h, m, s, events)
    ensures m.maxAttempts >= 1 && TotalCalls(events) <= |s.tasks| * m.maxAttempts <= 300
  {
    BatchSize(h, m, s);
    var ids := s.tasks.Keys;
    forall k | 0 <= k < |events| && events[k].Called? ensures events[k].id in ids {
      CalledIsStored(h, m, s, events, k);
    }
    SumIsTotal(events, ids);
    forall id | id in ids ensures CallsOf(events)(id) <= m.maxAttempts { CallsWithin(h, m, s, events, id); }
    SumAtMost(ids, CallsOf(events), m.maxAttempts);
    Product(|s.tasks|, m.maxAttempts);
  }

  lemma Product(a: nat, b: nat)
    requires a <= 100 && b <= 3
    ensures a * b <= 300
  {
  }

  // ---------------------------------------------------------------- evidence cannot be altered

  lemma SameList(a: Attempt, b: Attempt)
    requires RebuiltPayload(a) == RebuiltPayload(b)
    requires "data" !in a.responseMetadata && "data" !in b.responseMetadata
    ensures a.responseMetadata == b.responseMetadata && |a.results| == |b.results|
    ensures forall i :: 0 <= i < |a.results| ==> a.results[i].metadata == b.results[i].metadata
  {
    var f, g := RebuiltPayload(a).fields, RebuiltPayload(b).fields;
    assert f["data"].items == g["data"].items;
    forall i | 0 <= i < |a.results| ensures a.results[i].metadata == b.results[i].metadata {
      assert f["data"].items[i] == g["data"].items[i];
    }
    assert a.responseMetadata == f - {"data"} && b.responseMetadata == g - {"data"};
  }

  /** Main result: with a collision-free digest, two valid records of a success with the same response hash
      hold the same results, in the same order, and the same metadata: whoever alters a stored result,
      drops one or reorders them must also forge the hash. */
  lemma EvidenceCannotBeAltered(h: Hashes, a: Attempt, b: Attempt)
    requires forall x, y {:trigger h.json(x), h.json(y)} :: h.json(x) == h.json(y) ==> x == y
    requires AttemptEvidence(h, a) && AttemptEvidence(h, b)
    requires (a.outcome.Success? || a.outcome.ZeroResults?) && (b.outcome.Success? || b.outcome.ZeroResults?)
    requires a.responseHash == b.responseHash
    requires "data" !in a.responseMetadata && "data" !in b.responseMetadata
    ensures a.results == b.results && a.responseMetadata == b.responseMetadata && a.outcome == b.outcome
    ensures forall i :: 0 <= i < |a.results| ==> a.results[i].rank == i + 1
  {
    assert h.json(RebuiltPayload(a)) == h.json(RebuiltPayload(b));
    SameList(a, b);
    forall i | 0 <= i < |a.results| ensures a.results[i] == b.results[i] {
      assert a.results[i].metadata == b.results[i].metadata && a.results[i].rank == b.results[i].rank;
    }
  }

  // ---------------------------------------------------------------- one id, one task

  lemma PartsAgree(a: seq<string>, b: seq<string>, x: seq<string>, y: seq<string>)
    requires a + b == x + y && |a| == |x|
    ensures a == x && b == y
  {
    assert a == (a + b)[..|a|] && x == (x + y)[..|x|];
    assert b == (a + b)[|a|..] && y == (x + y)[|x|..];
  }

  /** The parts of a task identity are joined by bars before they are digested. */
  predicate NoBars(parts: seq<string>) { forall part :: part in parts ==> '|' !in part }

  /** Different lists of parts that hold no bar, or different limits, have different digests. */
  ghost predicate TellsTasksApart(h: Hashes) {
    forall p, q, k, l {:trigger h.task(p, k), h.task(q, l)} ::
      NoBars(p) && NoBars(q) && h.task(p, k) == h.task(q, l) ==> p == q && k == l
  }

  function IdParts(m: Manifest, t: Target, query: string): seq<string> {
    [m.batchId, NamespaceText(t.namespace), t.geoid, m.templateId, query]
    + [t.state, t.entityName, t.entityKind, t.universeVintage]
  }

  /** Main result: with a collision-free digest, and texts that hold no bar, a current task id names one
      batch, query, template and complete snapshot of one entity. */
  lemma IdNamesOneTask(h: Hashes, m: Manifest, n: Manifest, t: Target, u: Target, query: string, other: string)
    requires TellsTasksApart(h) && NoBars(IdParts(m, t, query)) && NoBars(IdParts(n, u, other))
    requires m.schema == CURRENT_SCHEMA && n.schema == CURRENT_SCHEMA
    requires TaskId(h, m, t, query).Some? && TaskId(h, m, t, query) == TaskId(h, n, u, other)
    requires ValidTarget(t) && ValidTarget(u)
    ensures t == u && query == other
    ensures m.batchId == n.batchId && m.templateId == n.templateId && m.resultLimit == n.resultLimit
  {
    var a := [m.batchId, NamespaceText(t.namespace), t.geoid, m.templateId, query];
    var b := [t.state, t.entityName, t.entityKind, t.universeVintage];
    var x := [n.batchId, NamespaceText(u.namespace), u.geoid, n.templateId, other];
    var y := [u.state, u.entityName, u.entityKind, u.universeVintage];
    assert h.task(a + b, m.resultLimit) == h.task(x + y, n.resultLimit);
    PartsAgree(a, b, x, y);
    assert a[0] == x[0] && a[1] == x[1] && a[2] == x[2] && a[3] == x[3] && a[4] == x[4];
    assert b[0] == y[0] && b[1] == y[1] && b[2] == y[2] && b[3] == y[3];
    NamesApart(t.namespace, u.namespace);
  }

  lemma NamesApart(a: Namespace, b: Namespace)
    requires !a.UnknownNamespace? && !b.UnknownNamespace? && NamespaceText(a) == NamespaceText(b)
    ensures a == b
  {
    assert NamespaceText(County)[0] == 'c' && NamespaceText(SchoolDistrict)[0] == 's';
    assert NamespaceText(IncorporatedPlace)[0] == 'i';
  }

  /** Without a complete snapshot there is no current id. */
  lemma IncompleteHasNoId(h: Hashes, m: Manifest, t: Target, query: string)
    requires m.schema == CURRENT_SCHEMA
    ensures TaskId(h, m, t, query).None? <==>
      t.state == "" || t.entityName == "" || t.entityKind == "" || t.universeVintage == ""
  {
  }

  // ---------------------------------------------------------------- where rows lie

  /** In a store that can be read, every row lies in the file of its namespace, its state and the third
      digit of its GEOID. */
  lemma RowsLieWhereTheyBelong(h: Hashes, shards: Shards, shard: Shard, i: nat)
    requires LoadableBatch(h, shards) && shard in shards && i < |shards[shard]|
    ensures var t := shards[shard][i].target;
      shard.namespace == t.namespace && shard.state == t.state && |t.geoid| >= 5 && shard.prefix == t.geoid[2]
    ensures |shards[shard]| <= 1000
  {
    assert Fits(h)(shard, shards[shard][i]);
  }

  // ---------------------------------------------------------------- the validators, column by column

  predicate Answered(a: Attempt) { a.outcome == Success || a.outcome == ZeroResults }

  /** Which attempts may be tried again, and which say that every further call would fail. */
  predicate FlagsFit(a: Attempt) {
    && (a.outcome in {Indeterminate, Timeout, RateLimited} ==> a.retryable && !a.systemic)
    && (a.outcome in {Success, ZeroResults, InFlight, OversizedResponse, MalformedResponse} ==>
          !a.retryable && !a.systemic)
    && (a.outcome == HttpError ==>
          && (a.systemic <==> a.httpStatus in {401, 402, 403})
          && (a.retryable <==> a.httpStatus == 0 || a.httpStatus >= 500))
  }

  /** Which HTTP status goes with which outcome. */
  predicate StatusFits(a: Attempt) {
    && 0 <= a.httpStatus <= 599
    && (a.outcome in {InFlight, Indeterminate, Timeout} ==> a.httpStatus == 0)
    && (a.outcome == RateLimited ==> a.httpStatus in {0, 429})
    && (a.outcome in {Success, ZeroResults, OversizedResponse, MalformedResponse} ==> 200 <= a.httpStatus <= 299)
  }

  /** An answer bears no error, a marker none yet, a lost attempt one of two, anything else some error. */
  predicate ErrorFits(a: Attempt) {
    && a.sanitizedError == a.errorCode
    && (a.errorCode == NoError <==> Answered(a) || a.outcome == InFlight)
    && (a.outcome == Indeterminate ==> a.errorCode in {ProcessInterrupted, RequestIndeterminate})
  }

  /** Only an answer keeps anything, and it keeps exactly what its hash was made of. */
  predicate ContentFits(h: Hashes, a: Attempt) {
    if Answered(a) then
      && (a.results != [] <==> a.outcome == Success)
      && (forall i :: 0 <= i < |a.results| ==> a.results[i].rank == i + 1 && a.results[i].metadata.Object?)
      && a.responseHash == Some(h.json(RebuiltPayload(a)))
    else a.results == [] && a.responseMetadata == map[] && a.responseHash == None
  }

  /** Main result: attempt evidence is accepted exactly if its outcome is known and its status, its errors,
      its flags and its content each fit that outcome. */
  lemma AttemptOnColumns(h: Hashes, a: Attempt)
    ensures AttemptEvidence(h, a) <==>
      && !a.outcome.UnknownOutcome? && StatusFits(a) && ErrorFits(a) && FlagsFit(a) && ContentFits(h, a)
      && (a.outcome == InFlight ==> a.retryAfter == 0.0)
  {
    match a.outcome
    case Success =>
    case ZeroResults =>
    case Timeout =>
    case HttpError =>
    case RateLimited =>
    case OversizedResponse =>
    case MalformedResponse =>
    case InFlight =>
    case Indeterminate =>
    case AccountUnavailable =>
    case GatewayFailure =>
    case UnknownOutcome(_) =>
  }

  predicate Alphabetical(a: string, b: string) {
    |a| == 2 == |b| && (a[0] < b[0] || (a[0] == b[0] && a[1] < b[1]))
  }

  predicate DigitsOnly(s: string, length: nat) { |s| == length && forall c :: c in s ==> '0' <= c <= '9' }

  predicate Capitals(s: string) { |s| == 2 && forall c :: c in s ==> 'A' <= c <= 'Z' }

  /** A target: a county has a GEOID of five digits, a school district or a place of seven. */
  lemma TargetOnColumns(t: Target)
    ensures ValidTarget(t) <==>
      && Capitals(t.state)
      && ((t.namespace == County && DigitsOnly(t.geoid, 5))
          || ((t.namespace == SchoolDistrict || t.namespace == IncorporatedPlace) && DigitsOnly(t.geoid, 7)))
  {
    CapitalsAreUpper(t.state);
    DigitsAreDigits(t.geoid);
  }

  lemma CapitalsAreUpper(s: string)
    ensures Capitals(s) <==> UpperPair(s)
  {
    if |s| == 2 { assert s[0] in s && s[1] in s; }
  }

  lemma DigitsAreDigits(s: string)
    ensures Digits(s) <==> |s| > 0 && DigitsOnly(s, |s|)
  {
    if Digits(s) {
      forall c | c in s ensures '0' <= c <= '9' {
        var i :| 0 <= i < |s| && s[i] == c;
      }
    }
    if DigitsOnly(s, |s|) {
      forall i | 0 <= i < |s| ensures '0' <= s[i] <= '9' { assert s[i] in s; }
    }
  }

  /** Main result: a manifest is accepted exactly for 1 to 100 tasks under distinct ascending ids, 1 to 5
      results, 1 to 60 requests a minute and 1 to 3 attempts, with distinct known namespaces, alphabetical
      states and a well-formed heading. */
  lemma ManifestOnColumns(m: Manifest)
    ensures ValidManifest(m) <==>
      && (m.schema == 1 || m.schema == 2) && ValidBatchId(m.batchId) && m.created.Second?
      && m.templateId != "" && m.seed != ""
      && m.namespaces != [] && (forall n :: n in m.namespaces ==> n in {County, SchoolDistrict, IncorporatedPlace})
      && (forall i, j :: 0 <= i < j < |m.namespaces| ==> m.namespaces[i] != m.namespaces[j])
      && m.states != [] && (forall s :: s in m.states ==> Capitals(s))
      && (forall i, j :: 0 <= i < j < |m.states| ==> Alphabetical(m.states[i], m.states[j]))
      && |m.fingerprints| == m.taskLimit && 1 <= m.taskLimit <= 100
      && (forall i, j :: 0 <= i < j < |m.fingerprints| ==> m.fingerprints[i] < m.fingerprints[j])
      && 1 <= m.resultLimit <= 5 && 1 <= m.requestsPerMinute <= 60 && 1 <= m.maxAttempts <= 3
  {
    forall s | s in m.states ensures Capitals(s) <==> UpperPair(s) { CapitalsAreUpper(s); }
    forall n | n in m.namespaces ensures n in {County, SchoolDistrict, IncorporatedPlace} <==> !n.UnknownNamespace? {}
    if forall s :: s in m.states ==> UpperPair(s) {
      forall i, j | 0 <= i < j < |m.states|
        ensures StateRank(m.states[i]) < StateRank(m.states[j]) <==> Alphabetical(m.states[i], m.states[j])
      {
        assert m.states[i] in m.states && m.states[j] in m.states;
        RanksAreAlphabetical(m.states[i], m.states[j]);
      }
    }
  }

  lemma RanksAreAlphabetical(a: string, b: string)
    requires UpperPair(a) && UpperPair(b)
    ensures StateRank(a) < StateRank(b) <==> Alphabetical(a, b)
  {
  }

  /** Main result: with a collision-free digest the request hash of a valid checkpoint names its query and
      the result limit of its batch. */
  lemma RequestHashNamesTheRequest(h: Hashes, m: Manifest, n: Manifest, c: Checkpoint, d: Checkpoint)
    requires forall x, y {:trigger h.json(x), h.json(y)} :: h.json(x) == h.json(y) ==> x == y
    requires ValidMember(h, m, c) && ValidMember(h, n, d) && c.requestHash == d.requestHash
    ensures c.query == d.query && m.resultLimit == n.resultLimit
  {
    var f := map["limit" := Number(m.resultLimit as real), "query" := Text(c.query)];
    var g := map["limit" := Number(n.resultLimit as real), "query" := Text(d.query)];
    assert h.json(Object(f)) == h.json(Object(g));
    assert f["query"] == g["query"] && f["limit"] == g["limit"];
  }
}
