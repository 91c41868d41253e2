/**
 The validators every stored batch passes through, and the sharded checkpoint store.

 `ValidCheckpoint` and `ValidBatch` say what an acceptable batch is; the methods beside them
 are the loops that decide it.
 */
module DiscoveryStore {
  import opened Options
  import opened DiscoveryModels
  import opened ShardedRows
  import opened StableSort

  const LINE_CAP := 1000

  // ---------------------------------------------------------------- one attempt

  predicate HttpOk(status: int) { 200 <= status < 300 }

  /** The response of a successful attempt, put back together from what the attempt kept. */
  function RebuiltPayload(a: Attempt): Json {
    var data := seq(|a.results|, i requires 0 <= i < |a.results| => a.results[i].metadata);
    Object(a.responseMetadata["data" := Array(data)])
  }

  predicate SuccessEvidence(h: Hashes, a: Attempt) {
    && a.responseHash.Some?
    && (forall i :: 0 <= i < |a.results| ==> a.results[i].rank == i + 1 && a.results[i].metadata.Object?)
    && (a.outcome.Success? <==> |a.results| > 0)
    && a.responseHash.value == h.json(RebuiltPayload(a))
    && !a.retryable && !a.systemic
    && HttpOk(a.httpStatus)
    && a.errorCode == NoError && a.sanitizedError == NoError
  }

  predicate FailureEvidence(a: Attempt) {
    && a.responseHash.None? && a.responseMetadata == map[] && a.results == []
    && match a.outcome
       case InFlight =>
         && a.httpStatus == 0 && a.retryAfter == 0.0 && a.errorCode == NoError
         && a.sanitizedError == NoError && !a.retryable && !a.systemic
       case Indeterminate =>
         && a.httpStatus == 0 && a.retryable && !a.systemic
         && (a.errorCode == ProcessInterrupted || a.errorCode == RequestIndeterminate)
         && a.sanitizedError == a.errorCode
       case _ =>
         && a.errorCode != NoError && a.sanitizedError == a.errorCode
         && match a.outcome
            case Timeout => a.httpStatus == 0 && a.retryable && !a.systemic
            case RateLimited => (a.httpStatus == 0 || a.httpStatus == 429) && a.retryable && !a.systemic
            case OversizedResponse => HttpOk(a.httpStatus) && !a.retryable && !a.systemic
            case MalformedResponse => HttpOk(a.httpStatus) && !a.retryable && !a.systemic
            case HttpError =>
              && a.systemic == (a.httpStatus == 401 || a.httpStatus == 402 || a.httpStatus == 403)
              && a.retryable == (a.httpStatus == 0 || a.httpStatus >= 500)
            case _ => true
  }

  predicate AttemptEvidence(h: Hashes, a: Attempt) {
    && !a.outcome.UnknownOutcome?
    && 0 <= a.httpStatus <= 599
    && if a.outcome.Success? || a.outcome.ZeroResults? then SuccessEvidence(h, a) else FailureEvidence(a)
  }

  /** The source's walk over the results of a success: ranks and raw metadata are collected, then judged. */
  method CheckSuccess(h: Hashes, a: Attempt) returns (ok: bool)
    ensures ok <==> SuccessEvidence(h, a)
  {
    if a.responseHash.None? { return false; }
    var raw: seq<Json> := [];
    for i := 0 to |a.results|
      invariant |raw| == i
      invariant forall j :: 0 <= j < i ==>
        a.results[j].rank == j + 1 && a.results[j].metadata.Object? && raw[j] == a.results[j].metadata
    {
      if !a.results[i].metadata.Object? || a.results[i].rank != i + 1 { return false; }
      raw := raw + [a.results[i].metadata];
    }
    assert raw == seq(|a.results|, i requires 0 <= i < |a.results| => a.results[i].metadata);
    if a.outcome.Success? != (|raw| > 0) { return false; }
    var payload := Object(a.responseMetadata["data" := Array(raw)]);
    ok := a.responseHash.value == h.json(payload) && !a.retryable && !a.systemic && HttpOk(a.httpStatus)
      && a.errorCode == NoError && a.sanitizedError == NoError;
  }

  // ---------------------------------------------------------------- one checkpoint

  predicate UpperPair(s: string) { |s| == 2 && 'A' <= s[0] <= 'Z' && 'A' <= s[1] <= 'Z' }

  predicate Digits(s: string) { |s| > 0 && forall i :: 0 <= i < |s| ==> '0' <= s[i] <= '9' }

  predicate ValidTarget(t: Target) {
    && !t.namespace.UnknownNamespace?
    && Digits(t.geoid) && |t.geoid| == (if t.namespace.County? then 5 else 7)
    && UpperPair(t.state)
  }

  /** Attempts are numbered 1, 2, ... and do not overlap; only the last may lack a completion. */
  predicate OrderedAttempts(attempts: seq<Attempt>) {
    forall i :: 0 <= i < |attempts| ==>
      && attempts[i].number == i + 1
      && attempts[i].started.Second?
      && (i > 0 ==> attempts[i - 1].completed.Second? && attempts[i - 1].completed.at <= attempts[i].started.at)
      && if attempts[i].outcome.InFlight? then attempts[i].completed.Blank? && i == |attempts| - 1
         else attempts[i].completed.Second? && attempts[i].started.at <= attempts[i].completed.at
  }

  predicate StatusShape(c: Checkpoint) {
    && !c.status.UnknownStatus?
    && (c.status.Pending? ==> |c.attempts| == 0)
    && (Terminal(c.status) ==> |c.attempts| > 0)
    && (|c.attempts| > 0 ==>
          var last := c.attempts[|c.attempts| - 1];
          && (c.status.Succeeded? || c.status.NothingFound? || c.status.NonRetryableFailure? ==>
                c.status == StatusOf(last, c.status))
          && (c.status.RetryableFailure? ==> last.retryable)
          && (c.status.Flying? ==> last.outcome.InFlight?))
  }

  /** The status a final attempt implies; a retryable one implies whatever status is claimed. */
  function StatusOf(last: Attempt, claimed: Status): Status {
    if last.outcome.Success? then Succeeded
    else if last.outcome.ZeroResults? then NothingFound
    else if !last.retryable then NonRetryableFailure
    else claimed
  }

  predicate ValidCheckpoint(h: Hashes, c: Checkpoint) {
    && ValidTarget(c.target)
    && c.query != ""
    && StatusShape(c)
    && OrderedAttempts(c.attempts)
    && forall i :: 0 <= i < |c.attempts| ==> AttemptEvidence(h, c.attempts[i])
  }

  /** `validate_checkpoint`: one pass with a running `previousCompletion`. */
  method ValidateCheckpoint(h: Hashes, c: Checkpoint) returns (ok: bool)
    ensures ok <==> ValidCheckpoint(h, c)
  {
    if !ValidTarget(c.target) || c.query == "" || !StatusShape(c) { return false; }
    var previousCompletion: Option<int> := None;
    for i := 0 to |c.attempts|
      invariant forall j :: 0 <= j < i ==>
        && AttemptEvidence(h, c.attempts[j])
        && c.attempts[j].number == j + 1
        && c.attempts[j].started.Second?
        && (j > 0 ==> c.attempts[j - 1].completed.Second? && c.attempts[j - 1].completed.at <= c.attempts[j].started.at)
        && if c.attempts[j].outcome.InFlight? then c.attempts[j].completed.Blank? && j == |c.attempts| - 1
           else c.attempts[j].completed.Second? && c.attempts[j].started.at <= c.attempts[j].completed.at
      invariant 0 < i < |c.attempts| ==> previousCompletion == Some(c.attempts[i - 1].completed.at)
      invariant i == 0 ==> previousCompletion == None
    {
      var a := c.attempts[i];
      if a.number != i + 1 || a.outcome.UnknownOutcome? || !a.started.Second? { return false; }
      if previousCompletion.Some? && a.started.at < previousCompletion.value { return false; }
      if a.outcome.InFlight? {
        if !a.completed.Blank? || i != |c.attempts| - 1 { return false; }
      } else {
        if !a.completed.Second? || a.completed.at < a.started.at { return false; }
        previousCompletion := Some(a.completed.at);
      }
      if !(0 <= a.httpStatus <= 599) { return false; }
      var evidence: bool;
      if a.outcome.Success? || a.outcome.ZeroResults? {
        evidence := CheckSuccess(h, a);
      } else {
        evidence := FailureEvidence(a);
      }
      if !evidence { return false; }
    }
    ok := true;
  }

  /** In a valid checkpoint evidence is ordered end to end, not only between neighbours. */
  lemma {:induction false} EvidenceIsSequential(attempts: seq<Attempt>, i: int, j: int)
    requires OrderedAttempts(attempts) && 0 <= i < j < |attempts|
    ensures attempts[i].completed.Second? && attempts[j].started.Second?
    ensures attempts[i].completed.at <= attempts[j].started.at
    decreases j
  {
    if i < j - 1 {
      EvidenceIsSequential(attempts, i, j - 1);
      assert !attempts[j - 1].outcome.InFlight?;
    }
  }

  // ---------------------------------------------------------------- a whole batch

  predicate StrictlySorted(s: seq<Digest>) { forall i, j :: 0 <= i < j < |s| ==> s[i] < s[j] }

  predicate ValidBatchId(s: string) {
    && |s| == 16 && s[8] == 'T' && s[15] == 'Z' && Digits(s[..8]) && Digits(s[9..15])
  }

  predicate NoRepeats(namespaces: seq<Namespace>) {
    forall i, j :: 0 <= i < j < |namespaces| ==> namespaces[i] != namespaces[j]
  }

  /** Where a two-letter state comes in alphabetical order. */
  function StateRank(s: string): nat { if |s| == 2 then 0x110000 * s[0] as int + s[1] as int else 0 }

  predicate StatesSorted(states: seq<string>) {
    forall i, j :: 0 <= i < j < |states| ==> StateRank(states[i]) < StateRank(states[j])
  }

  predicate ValidManifest(m: Manifest) {
    && (m.schema == LEGACY_SCHEMA || m.schema == CURRENT_SCHEMA)
    && ValidBatchId(m.batchId)
    && m.created.Second? && m.templateId != "" && m.seed != ""
    && m.namespaces != [] && (forall n :: n in m.namespaces ==> !n.UnknownNamespace?) && NoRepeats(m.namespaces)
    && m.states != [] && (forall s :: s in m.states ==> UpperPair(s)) && StatesSorted(m.states)
    && 1 <= m.taskLimit <= 100 && 1 <= m.resultLimit <= 5
    && 1 <= m.requestsPerMinute <= 60 && 1 <= m.maxAttempts <= 3
    && |m.fingerprints| == m.taskLimit
    && StrictlySorted(m.fingerprints)
  }

  /** The status `validate_batch` recomputes from the attempts and the attempt budget. */
  function ExpectedStatus(attempts: seq<Attempt>, maxAttempts: int): Status {
    if |attempts| == 0 then Pending
    else
      var final := attempts[|attempts| - 1];
      if final.outcome.Success? then Succeeded
      else if final.outcome.ZeroResults? then NothingFound
      else if final.outcome.InFlight? then Flying
      else if !final.retryable then NonRetryableFailure
      else if |attempts| >= maxAttempts then AttemptsExhausted
      else RetryableFailure
  }

  /** What `validate_batch` demands of one checkpoint under its manifest. */
  predicate ValidMember(h: Hashes, m: Manifest, c: Checkpoint) {
    && ValidCheckpoint(h, c)
    && c.requestHash == RequestHash(h, c.query, m.resultLimit)
    && TaskId(h, m, c.target, c.query) == Some(c.taskId)
    && |c.attempts| <= m.maxAttempts
    && (forall i :: 0 <= i < |c.attempts| ==> |c.attempts[i].results| <= m.resultLimit)
    && c.status == ExpectedStatus(c.attempts, m.maxAttempts)
  }

  function Ids(cs: seq<Checkpoint>): (ids: seq<Digest>)
    ensures |ids| == |cs|
    ensures forall i :: 0 <= i < |cs| ==> ids[i] == cs[i].taskId
  {
    seq(|cs|, i requires 0 <= i < |cs| => cs[i].taskId)
  }

  function NamespacesOf(cs: seq<Checkpoint>): set<Namespace> { set c | c in cs :: c.target.namespace }

  function NamedNamespaces(m: Manifest): set<Namespace> { set n | n in m.namespaces }

  function NamedStates(m: Manifest): set<string> { set s | s in m.states }

  function StatesOf(cs: seq<Checkpoint>): set<string> { set c | c in cs :: c.target.state }

  /** What `validate_batch` demands of one checkpoint, as a value. */
  ghost function Member(h: Hashes, m: Manifest): Checkpoint -> bool { c => ValidMember(h, m, c) }

  /** `validate_batch` after its manifest check, with the per-checkpoint judgement left open: the same
      task ids (the sorted tuples agree exactly when the multisets do), namespaces and states. */
  ghost predicate ListValid(m: Manifest, cs: seq<Checkpoint>, good: Checkpoint -> bool) {
    && multiset(Ids(cs)) == multiset(m.fingerprints)
    && NamespacesOf(cs) == NamedNamespaces(m) && StatesOf(cs) == NamedStates(m)
    && forall c :: c in cs ==> good(c)
  }

  ghost predicate ValidBatch(h: Hashes, m: Manifest, cs: seq<Checkpoint>) {
    ValidManifest(m) && ListValid(m, cs, Member(h, m))
  }

  /** The per-checkpoint part of `validate_batch`. */
  method ValidateMember(h: Hashes, m: Manifest, c: Checkpoint) returns (ok: bool)
    ensures ok <==> ValidMember(h, m, c)
  {
    ok := ValidateCheckpoint(h, c);
    if !ok || c.requestHash != RequestHash(h, c.query, m.resultLimit)
       || TaskId(h, m, c.target, c.query) != Some(c.taskId)
       || |c.attempts| > m.maxAttempts {
      return false;
    }
    for k := 0 to |c.attempts|
      invariant forall j :: 0 <= j < k ==> |c.attempts[j].results| <= m.resultLimit
    {
      if |c.attempts[k].results| > m.resultLimit { return false; }
    }
    ok := c.status == ExpectedStatus(c.attempts, m.maxAttempts);
  }

  method ValidateMembers(h: Hashes, m: Manifest, cs: seq<Checkpoint>) returns (ok: bool)
    ensures ok <==> forall i :: 0 <= i < |cs| ==> ValidMember(h, m, cs[i])
  {
    for i := 0 to |cs|
      invariant forall j :: 0 <= j < i ==> ValidMember(h, m, cs[j])
    {
      var valid := ValidateMember(h, m, cs[i]);
      if !valid { return false; }
    }
    ok := true;
  }

  lemma ListedMembers(h: Hashes, m: Manifest, cs: seq<Checkpoint>, good: Checkpoint -> bool)
    requires good == Member(h, m)
    ensures (forall i :: 0 <= i < |cs| ==> ValidMember(h, m, cs[i])) <==> forall c :: c in cs ==> good(c)
  {
    if forall c :: c in cs ==> good(c) {
      forall i | 0 <= i < |cs| ensures ValidMember(h, m, cs[i]) { assert cs[i] in cs; }
    }
  }

  /** `validate_batch`. */
  method ValidateBatch(h: Hashes, m: Manifest, cs: seq<Checkpoint>) returns (ok: bool)
    ensures ok <==> ValidBatch(h, m, cs)
  {
    if !ValidManifest(m) || multiset(Ids(cs)) != multiset(m.fingerprints) { return false; }
    if NamespacesOf(cs) != NamedNamespaces(m) || StatesOf(cs) != NamedStates(m) { return false; }
    ListedMembers(h, m, cs, Member(h, m));
    ok := ValidateMembers(h, m, cs);
  }

  // ---------------------------------------------------------------- shards

  /** `results/<namespace>/<state>/<third GEOID digit>.jsonl`; a valid GEOID has that digit. */
  datatype Shard = Shard(namespace: Namespace, state: string, prefix: char)

  function ShardOf(c: Checkpoint): Shard {
    Shard(c.target.namespace, c.target.state, if |c.target.geoid| > 2 then c.target.geoid[2] else '0')
  }

  type Shards = map<Shard, seq<Checkpoint>>

  /** The lines `load_checkpoints` accepts: a valid checkpoint in its own shard. */
  function Fits(h: Hashes): (Shard, Checkpoint) -> bool { (s, c) => ValidCheckpoint(h, c) && ShardOf(c) == s }

  function IdOf(c: Checkpoint): Digest { c.taskId }

  ghost predicate LoadableBatch(h: Hashes, shards: Shards) { Loadable(shards, Fits(h), IdOf, LINE_CAP) }

  /** The checkpoints on disk, by task id. */
  ghost function Tasks(h: Hashes, shards: Shards): map<Digest, Checkpoint>
    requires LoadableBatch(h, shards)
  {
    Table(shards, IdOf)
  }

  ghost function TableNamespaces(tasks: map<Digest, Checkpoint>): set<Namespace> {
    set id | id in tasks :: tasks[id].target.namespace
  }

  ghost function TableStates(tasks: map<Digest, Checkpoint>): set<string> {
    set id | id in tasks :: tasks[id].target.state
  }

  ghost predicate TableValid(m: Manifest, tasks: map<Digest, Checkpoint>, good: Checkpoint -> bool) {
    && tasks.Keys == (set id | id in m.fingerprints)
    && TableNamespaces(tasks) == NamedNamespaces(m) && TableStates(tasks) == NamedStates(m)
    && forall id :: id in tasks ==> tasks[id].taskId == id && good(tasks[id])
  }

  /** `validate_batch` on the tasks of a store: the manifest names exactly these ids. */
  ghost predicate ValidTasks(h: Hashes, m: Manifest, tasks: map<Digest, Checkpoint>) {
    ValidManifest(m) && TableValid(m, tasks, Member(h, m))
  }

  lemma StrictlySortedUnique(a: seq<Digest>, b: seq<Digest>)
    requires StrictlySorted(a) && StrictlySorted(b)
    requires forall x :: x in a <==> x in b
    ensures a == b
  {
    SortedListUnique(a, b, (x: Digest) => x);
  }

  /** For strictly sorted tuples, equal sorted contents means the same members. */
  lemma SortedTuplesAgree(a: seq<Digest>, b: seq<Digest>)
    requires StrictlySorted(a) && StrictlySorted(b)
    ensures multiset(a) == multiset(b) <==> (forall x :: x in a <==> x in b)
  {
    if multiset(a) == multiset(b) {
      forall x ensures x in a <==> x in b {
        assert x in a <==> x in multiset(a);
        assert x in b <==> x in multiset(b);
      }
    }
    if forall x :: x in a <==> x in b { StrictlySortedUnique(a, b); }
  }

  lemma ListedIds(cs: seq<Checkpoint>, tasks: map<Digest, Checkpoint>)
    requires Lists(cs, tasks, IdOf)
    requires forall id :: id in tasks ==> tasks[id].taskId == id
    ensures StrictlySorted(Ids(cs))
    ensures forall id :: id in Ids(cs) <==> id in tasks
  {
    var ids := Ids(cs);
    forall id | id in tasks ensures id in ids {
      assert tasks[id] in cs;
      var i :| 0 <= i < |cs| && cs[i] == tasks[id];
      assert ids[i] == id;
    }
    forall id | id in ids ensures id in tasks {
      var i :| 0 <= i < |ids| && ids[i] == id;
      assert cs[i] in cs;
    }
    forall i, j | 0 <= i < j < |ids| ensures ids[i] < ids[j] {
      assert IdOf(cs[i]) < IdOf(cs[j]);
    }
  }

  lemma SameSets(cs: seq<Checkpoint>, tasks: map<Digest, Checkpoint>)
    requires forall c: Checkpoint :: c.taskId in tasks && tasks[c.taskId] == c <==> c in cs
    requires forall id :: id in tasks ==> tasks[id].taskId == id
    ensures NamespacesOf(cs) == TableNamespaces(tasks)
    ensures StatesOf(cs) == TableStates(tasks)
  {
    assert forall id :: id in tasks ==> tasks[id] in cs;
  }

  lemma SameIds(fingerprints: seq<Digest>, cs: seq<Checkpoint>, tasks: map<Digest, Checkpoint>)
    requires StrictlySorted(fingerprints) && Lists(cs, tasks, IdOf)
    requires forall id :: id in tasks ==> tasks[id].taskId == id
    ensures multiset(Ids(cs)) == multiset(fingerprints) <==> tasks.Keys == (set id | id in fingerprints)
  {
    ListedIds(cs, tasks);
    SortedTuplesAgree(Ids(cs), fingerprints);
    if tasks.Keys == (set id | id in fingerprints) {
      forall x ensures x in Ids(cs) <==> x in fingerprints {
        assert x in tasks.Keys <==> x in fingerprints;
      }
    }
  }

  lemma ListAndTableAgree(
    m: Manifest, cs: seq<Checkpoint>, tasks: map<Digest, Checkpoint>, good: Checkpoint -> bool)
    requires StrictlySorted(m.fingerprints) && Lists(cs, tasks, IdOf)
    requires forall id :: id in tasks ==> tasks[id].taskId == id
    ensures ListValid(m, cs, good) <==> TableValid(m, tasks, good)
  {
    SameIds(m.fingerprints, cs, tasks);
    SameSets(cs, tasks);
    assert (forall c :: c in cs ==> good(c)) <==> (forall id :: id in tasks ==> good(tasks[id])) by {
      assert forall id :: id in tasks ==> tasks[id] in cs;
    }
  }

  /** Validating the listed checkpoints is validating the tasks. */
  lemma ListedBatchValid(h: Hashes, m: Manifest, cs: seq<Checkpoint>, tasks: map<Digest, Checkpoint>)
    requires Lists(cs, tasks, IdOf)
    requires forall id :: id in tasks ==> tasks[id].taskId == id
    ensures ValidBatch(h, m, cs) <==> ValidTasks(h, m, tasks)
  {
    if ValidManifest(m) {
      ListAndTableAgree(m, cs, tasks, Member(h, m));
    }
  }

  /** The list `replace_checkpoint` proposes stands for the tasks with one row changed. */
  lemma ProposedLists(
    current: seq<Checkpoint>, tasks: map<Digest, Checkpoint>, c: Checkpoint, proposed: seq<Checkpoint>)
    requires Lists(current, tasks, IdOf) && c.taskId in tasks
    requires forall id :: id in tasks ==> tasks[id].taskId == id
    requires |proposed| == |current|
    requires forall i :: 0 <= i < |current| ==>
      proposed[i] == if current[i].taskId == c.taskId then c else current[i]
    ensures Lists(proposed, tasks[c.taskId := c], IdOf)
  {
    forall i, j | 0 <= i < j < |proposed| ensures IdOf(proposed[i]) < IdOf(proposed[j]) {
      assert IdOf(current[i]) < IdOf(current[j]);
    }
    ProposedRows(current, tasks, c, proposed);
  }

  lemma ProposedRows(
    current: seq<Checkpoint>, tasks: map<Digest, Checkpoint>, c: Checkpoint, proposed: seq<Checkpoint>)
    requires c.taskId in tasks && |proposed| == |current|
    requires forall d: Checkpoint :: d in current <==> d.taskId in tasks && tasks[d.taskId] == d
    requires forall id :: id in tasks ==> tasks[id].taskId == id
    requires forall i :: 0 <= i < |current| ==>
      proposed[i] == if current[i].taskId == c.taskId then c else current[i]
    ensures forall d: Checkpoint :: d in proposed <==>
      d.taskId in tasks[c.taskId := c] && tasks[c.taskId := c][d.taskId] == d
  {
    var next := tasks[c.taskId := c];
    forall d | d in proposed ensures d.taskId in next && next[d.taskId] == d {
      var i :| 0 <= i < |proposed| && proposed[i] == d;
      assert current[i] in current;
    }
    forall d: Checkpoint | d.taskId in next && next[d.taskId] == d ensures d in proposed {
      assert tasks[d.taskId] in current;
      var i :| 0 <= i < |current| && current[i] == tasks[d.taskId];
      assert proposed[i] == d;
    }
  }

  lemma {:induction false} SingleCount(s: seq<Digest>, x: Digest)
    requires StrictlySorted(s)
    ensures multiset(s)[x] <= 1
  {
    if s != [] {
      SingleCount(s[1..], x);
      assert s == [s[0]] + s[1..];
      if s[0] == x {
        assert x !in s[1..];
        assert multiset(s[1..])[x] == 0;
      }
    }
  }

  lemma DistinctIds(m: Manifest, cs: seq<Checkpoint>)
    requires StrictlySorted(m.fingerprints) && multiset(Ids(cs)) == multiset(m.fingerprints)
    ensures |cs| == |m.fingerprints|
    ensures forall i, j :: 0 <= i < j < |cs| ==> cs[i].taskId != cs[j].taskId
  {
    var ids := Ids(cs);
    assert |multiset(ids)| == |multiset(m.fingerprints)|;
    forall i, j | 0 <= i < j < |cs| ensures cs[i].taskId != cs[j].taskId {
      if ids[i] == ids[j] {
        TwiceCounted(ids, i, j);
        SingleCount(m.fingerprints, ids[i]);
      }
    }
  }

  /** A valid list of checkpoints with its rows as a table is a valid table. */
  lemma FiledListValid(m: Manifest, cs: seq<Checkpoint>, tasks: map<Digest, Checkpoint>, good: Checkpoint -> bool)
    requires ListValid(m, cs, good)
    requires forall c: Checkpoint :: c.taskId in tasks && tasks[c.taskId] == c <==> c in cs
    requires forall id :: id in tasks ==> tasks[id].taskId == id
    ensures TableValid(m, tasks, good)
  {
    var ids := Ids(cs);
    assert forall id :: id in tasks ==> tasks[id] in cs;
    assert forall x :: x in ids <==> x in multiset(ids);
    assert forall x :: x in m.fingerprints <==> x in multiset(m.fingerprints);
    forall id ensures id in tasks <==> id in m.fingerprints {
      if id in tasks {
        var i :| 0 <= i < |cs| && cs[i] == tasks[id];
        assert ids[i] == id;
      }
      if id in ids {
        var i :| 0 <= i < |ids| && ids[i] == id;
        assert cs[i] in cs;
      }
    }
    SameSets(cs, tasks);
  }

  // ---------------------------------------------------------------- the store

  /** The batch on disk loads as valid tasks of `m`. */
  ghost predicate SoundBatch(h: Hashes, m: Manifest, shards: Shards) {
    LoadableBatch(h, shards) && ValidTasks(h, m, Tasks(h, shards))
  }

  /** When `replace_checkpoint` accepts `c`: the batch is current and loads, names the task, and is
      valid with the one row changed. */
  ghost predicate Admissible(h: Hashes, m: Manifest, shards: Shards, c: Checkpoint) {
    && m.schema == CURRENT_SCHEMA
    && LoadableBatch(h, shards)
    && c.taskId in Tasks(h, shards)
    && ValidTasks(h, m, Tasks(h, shards)[c.taskId := c])
  }

  method StageBatch(h: Hashes, m: Manifest, cs: seq<Checkpoint>) returns (staged: Shards)
    requires ValidBatch(h, m, cs)
    ensures SoundBatch(h, m, staged)
    ensures forall c :: Holds(staged, c) <==> c in cs
  {
    DistinctIds(m, cs);
    FreshBatchFits(h, m, cs);
    staged := Stage(cs, Fits(h), IdOf, LINE_CAP, ShardOf);
    FiledListValid(m, cs, Tasks(h, staged), Member(h, m));
  }

  lemma FreshBatchFits(h: Hashes, m: Manifest, cs: seq<Checkpoint>)
    requires ValidBatch(h, m, cs) && |cs| == |m.fingerprints|
    ensures |cs| <= LINE_CAP
    ensures forall c :: c in cs ==> Fits(h)(ShardOf(c), c)
  {
    forall c | c in cs ensures Fits(h)(ShardOf(c), c) {
      assert Member(h, m)(c);
    }
  }

  /** A replacement that keeps the batch valid fits its shard, and no shard can outgrow the cap. */
  lemma ReplacementFits(h: Hashes, m: Manifest, tasks: map<Digest, Checkpoint>, c: Checkpoint)
    requires c.taskId in tasks && ValidTasks(h, m, tasks[c.taskId := c])
    ensures Fits(h)(ShardOf(c), c) && |tasks.Keys| <= LINE_CAP
  {
    MembersBounded(m.fingerprints, tasks[c.taskId := c].Keys);
    assert tasks[c.taskId := c].Keys == tasks.Keys;
    assert Member(h, m)(tasks[c.taskId := c][c.taskId]);
  }

  lemma ReplacementStored(h: Hashes, shards: Shards, c: Checkpoint, rows: seq<Checkpoint>)
    requires LoadableBatch(h, shards) && c.taskId in Tasks(h, shards)
    requires Fits(h)(ShardOf(c), c) && |rows| <= LINE_CAP && SortedBy(rows, IdOf)
    requires forall d :: d in rows <==>
      d == c || (ShardOf(c) in shards && d in shards[ShardOf(c)] && d.taskId != c.taskId)
    ensures ShardOf(Tasks(h, shards)[c.taskId]) == ShardOf(c) ==>
      && LoadableBatch(h, shards[ShardOf(c) := rows])
      && Tasks(h, shards[ShardOf(c) := rows]) == Tasks(h, shards)[c.taskId := c]
    ensures ShardOf(Tasks(h, shards)[c.taskId]) != ShardOf(c) ==>
      !LoadableBatch(h, shards[ShardOf(c) := rows])
  {
    var home := HomeShard(h, shards, c.taskId);
    if home == ShardOf(c) {
      ReplacedEntry(shards, Fits(h), IdOf, LINE_CAP, home, c, rows);
    } else {
      MovedRowDuplicates(shards, Fits(h), IdOf, LINE_CAP, ShardOf(c), c, rows, home);
    }
  }

  /** The shard a task is stored in is its own. */
  lemma HomeShard(h: Hashes, shards: Shards, id: Digest) returns (home: Shard)
    requires LoadableBatch(h, shards) && id in Tasks(h, shards)
    ensures home in shards && Tasks(h, shards)[id] in shards[home] && home == ShardOf(Tasks(h, shards)[id])
  {
    var was := Tasks(h, shards)[id];
    assert Holds(shards, was);
    var s, i :| s in shards && 0 <= i < |shards[s]| && shards[s][i] == was;
    assert Fits(h)(s, shards[s][i]);
    home := s;
  }

  class BatchStore {
    const h: Hashes
    var manifest: Option<Manifest> // None until the batch directory exists
    var shards: Shards

    constructor (h: Hashes)
      ensures this.h == h && manifest == None && shards == map[]
    {
      this.h := h;
      manifest, shards := None, map[];
    }

    /** `load_checkpoints`. */
    method LoadCheckpoints() returns (r: Option<seq<Checkpoint>>)
      ensures r.Some? <==> LoadableBatch(h, shards)
      ensures r.Some? ==> Lists(r.value, Tasks(h, shards), IdOf)
    {
      var ok, loaded := Load(shards, Fits(h), IdOf, LINE_CAP);
      r := if ok then Some(loaded) else None;
    }

    method StoredBatchValid(m: Manifest) returns (ok: bool)
      ensures ok <==> manifest == Some(m) && SoundBatch(h, m, shards)
    {
      var stored := LoadCheckpoints();
      if manifest != Some(m) || stored.None? { return false; }
      ListedBatchValid(h, m, stored.value, Tasks(h, shards));
      ok := ValidateBatch(h, m, stored.value);
    }

    /** `initialize_batch`: an existing batch must be this manifest with valid rows; a new one is
        written in full before it becomes visible. */
    method InitializeBatch(m: Manifest, cs: seq<Checkpoint>) returns (ok: bool)
      modifies this
      ensures old(manifest).Some? || !ok ==> manifest == old(manifest) && shards == old(shards)
      ensures ok ==> manifest == Some(m) && SoundBatch(h, m, shards)
      ensures ok && old(manifest).None? ==> forall c :: Holds(shards, c) <==> c in cs
      ensures old(manifest).None? ==> (ok <==> ValidBatch(h, m, cs) && m.schema == CURRENT_SCHEMA)
      ensures old(manifest).Some? ==>
        (ok <==> ValidBatch(h, m, cs) && old(manifest) == Some(m) && SoundBatch(h, m, old(shards)))
    {
      ok := ValidateBatch(h, m, cs);
      if !ok { return; }
      if manifest.Some? {
        ok := StoredBatchValid(m);
        return;
      }
      if m.schema != CURRENT_SCHEMA { return false; }
      var staged := StageBatch(h, m, cs);
      manifest, shards := Some(m), staged;
    }

    /** `replace_checkpoint`'s checks, before anything is written. */
    method Admits(c: Checkpoint) returns (ok: bool)
      requires manifest.Some?
      ensures ok <==> Admissible(h, manifest.value, shards, c)
    {
      var m := manifest.value;
      if m.schema != CURRENT_SCHEMA { return false; }
      var loaded := LoadCheckpoints();
      if loaded.None? { return false; }
      var current := loaded.value;
      ghost var tasks := Tasks(h, shards);
      if !exists item :: item in current && item.taskId == c.taskId { return false; }
      var proposed := seq(|current|, i requires 0 <= i < |current| =>
        if current[i].taskId == c.taskId then c else current[i]);
      ProposedLists(current, tasks, c, proposed);
      ListedBatchValid(h, m, proposed, tasks[c.taskId := c]);
      ok := ValidateBatch(h, m, proposed);
    }

    /** `replace_checkpoint`: refused unless the batch with this row changed is still valid. A
        replacement that stays in its shard changes exactly one task; one that would move to another
        shard leaves a store no reader accepts. At most 100 tasks exist, so the line cap never refuses. */
    method ReplaceCheckpoint(c: Checkpoint) returns (ok: bool)
      requires manifest.Some?
      modifies this`shards
      ensures !ok ==> shards == old(shards)
      ensures ok <==> Admissible(h, manifest.value, old(shards), c)
      ensures ok && ShardOf(Tasks(h, old(shards))[c.taskId]) == ShardOf(c) ==>
        LoadableBatch(h, shards) && Tasks(h, shards) == Tasks(h, old(shards))[c.taskId := c]
      ensures ok && ShardOf(Tasks(h, old(shards))[c.taskId]) != ShardOf(c) ==> !LoadableBatch(h, shards)
    {
      ok := Admits(c);
      if !ok { return; }
      var rows := RewrittenShard(shards, IdOf, ShardOf(c), c);
      ReplacementFits(h, manifest.value, Tasks(h, shards), c);
      ReplacementStored(h, shards, c, rows);
      shards := shards[ShardOf(c) := rows];
    }
  }
}
