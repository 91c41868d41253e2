/**
 Evidence values of the paid source-discovery batches: manifests, checkpoints, attempts
 and the outcomes the search adapter can return, with the pure transitions between them.

 SHA-256 appears only through the `Hashes` parameter, so every statement holds for any
 function used in its place.
 */
module DiscoveryModels {
  import opened Options

  // ---------------------------------------------------------------- JSON and digests

  datatype Json =
    | Null
    | Bool(b: bool)
    | Number(n: real)
    | Text(s: string)
    | Array(items: seq<Json>)
    | Object(fields: map<string, Json>)

  type Digest = nat

  /** `task` digests the parts of a task identity, `json` the canonical form of a JSON value. */
  datatype Hashes = Hashes(task: (seq<string>, int) -> Digest, json: Json -> Digest)

  function RequestHash(h: Hashes, query: string, resultLimit: int): Digest {
    h.json(Object(map["limit" := Number(resultLimit as real), "query" := Text(query)]))
  }

  // ---------------------------------------------------------------- stored evidence

  /** A stored timestamp: absent, a second-precision UTC instant, or text that does not parse. */
  datatype Stamp = Blank | Second(at: int) | Malformed(text: string)

  /** `_timestamp`: a clock reading (in seconds) cut to whole seconds. */
  function StampOf(t: real): Stamp { Second(t.Floor) }

  datatype Transport =
    | Success | ZeroResults | Timeout | HttpError | RateLimited | OversizedResponse
    | MalformedResponse | InFlight | Indeterminate | AccountUnavailable | GatewayFailure
    | UnknownOutcome(text: string)

  datatype Status =
    | Pending | Flying | Succeeded | NothingFound | RetryableFailure | NonRetryableFailure
    | AttemptsExhausted | UnknownStatus(text: string)

  predicate Terminal(s: Status) {
    s.Succeeded? || s.NothingFound? || s.NonRetryableFailure? || s.AttemptsExhausted?
  }

  datatype ErrorCode =
    | NoError
    | ProcessInterrupted
    | RequestIndeterminate
    | Named(text: string)

  datatype Result = Result(rank: int, metadata: Json)

  datatype Attempt = Attempt(
    number: int,
    started: Stamp,
    completed: Stamp,
    outcome: Transport,
    httpStatus: int,
    retryAfter: real,
    responseHash: Option<Digest>,
    responseMetadata: map<string, Json>,
    results: seq<Result>,
    errorCode: ErrorCode,
    sanitizedError: ErrorCode,
    retryable: bool,
    systemic: bool)

  datatype Namespace = County | SchoolDistrict | IncorporatedPlace | UnknownNamespace(text: string)

  datatype Target = Target(
    namespace: Namespace,
    geoid: string,
    state: string,
    entityName: string,
    entityKind: string,
    universeVintage: string)

  datatype Checkpoint = Checkpoint(
    taskId: Digest,
    target: Target,
    query: string,
    requestHash: Digest,
    attempts: seq<Attempt>,
    status: Status)

  const LEGACY_SCHEMA := 1
  const CURRENT_SCHEMA := 2

  datatype Manifest = Manifest(
    schema: int,
    batchId: string,
    created: Stamp,
    templateId: string,
    seed: string,
    namespaces: seq<Namespace>,
    states: seq<string>,
    taskLimit: int,
    resultLimit: int,
    requestsPerMinute: int,
    maxAttempts: int,
    fingerprints: seq<Digest>)

  function NamespaceText(n: Namespace): string {
    match n
    case County => "county"
    case SchoolDistrict => "school_district"
    case IncorporatedPlace => "incorporated_place"
    case UnknownNamespace(text) => text
  }

  /** `make_task_id`: refused (None) for an unknown schema or an incomplete version-2 snapshot. */
  function TaskId(h: Hashes, m: Manifest, t: Target, query: string): Option<Digest> {
    var parts := [m.batchId, NamespaceText(t.namespace), t.geoid, m.templateId, query];
    if m.schema == LEGACY_SCHEMA then Some(h.task(parts, m.resultLimit))
    else if m.schema != CURRENT_SCHEMA || t.state == "" || t.entityName == "" || t.entityKind == ""
            || t.universeVintage == "" then None
    else Some(h.task(parts + [t.state, t.entityName, t.entityKind, t.universeVintage], m.resultLimit))
  }

  // ---------------------------------------------------------------- adapter outcomes

  datatype SearchOutcome = SearchOutcome(
    outcome: Transport,
    httpStatus: int,
    retryAfter: real,
    responseHash: Option<Digest>,
    responseMetadata: map<string, Json>,
    results: seq<Result>,
    errorCode: ErrorCode,
    sanitizedError: ErrorCode,
    retryable: bool,
    systemic: bool)

  function FailureOutcome(
    outcome: Transport, httpStatus: int, retryAfter: real, code: ErrorCode, retryable: bool, systemic: bool
  ): SearchOutcome
  {
    SearchOutcome(outcome, httpStatus, retryAfter, None, map[], [], code, code, retryable, systemic)
  }

  /** What the account gateway can do with one search. The payload is already redacted, unless
      redaction itself refused it. */
  datatype Reply =
    | CredentialMissing
    | LimitedFor(seconds: real)
    | Lost
    | CredentialRejected
    | BudgetUnavailable
    | Unavailable
    | Unredactable
    | Payload(body: Json)

  function Metadata(fields: map<string, Json>): map<string, Json> {
    map k | k in fields && k != "data" :: fields[k]
  }

  /** `search_outcome_from_payload` after redaction; the loop over results stops at a non-object. */
  function OutcomeFromPayload(h: Hashes, body: Json, resultLimit: int): SearchOutcome {
    if !body.Object? then
      FailureOutcome(MalformedResponse, 200, 0.0, Named("root_not_object"), false, false)
    else if "data" !in body.fields || "success" !in body.fields || body.fields["success"] != Bool(true)
            || !body.fields["data"].Array? then
      FailureOutcome(MalformedResponse, 200, 0.0, Named("missing_success_data"), false, false)
    else
      var items := body.fields["data"].items;
      if |items| > resultLimit then
        FailureOutcome(MalformedResponse, 200, 0.0, Named("result_limit_exceeded"), false, false)
      else if exists i :: 0 <= i < |items| && !items[i].Object? then
        FailureOutcome(MalformedResponse, 200, 0.0, Named("result_not_object"), false, false)
      else
        SearchOutcome(
          if |items| > 0 then Success else ZeroResults, 200, 0.0, Some(h.json(body)),
          Metadata(body.fields), seq(|items|, i requires 0 <= i < |items| => Result(i + 1, items[i])),
          NoError, NoError, false, false)
  }

  /** The same conversion as the source writes it: one pass that collects the ranked results. */
  method ConvertPayload(h: Hashes, body: Json, resultLimit: int) returns (o: SearchOutcome)
    ensures o == OutcomeFromPayload(h, body, resultLimit)
  {
    if !body.Object? {
      return FailureOutcome(MalformedResponse, 200, 0.0, Named("root_not_object"), false, false);
    }
    if "data" !in body.fields || "success" !in body.fields || body.fields["success"] != Bool(true)
       || !body.fields["data"].Array? {
      return FailureOutcome(MalformedResponse, 200, 0.0, Named("missing_success_data"), false, false);
    }
    var items := body.fields["data"].items;
    if |items| > resultLimit {
      return FailureOutcome(MalformedResponse, 200, 0.0, Named("result_limit_exceeded"), false, false);
    }
    var results: seq<Result> := [];
    for i := 0 to |items|
      invariant |results| == i
      invariant forall j :: 0 <= j < i ==> items[j].Object? && results[j] == Result(j + 1, items[j])
    {
      if !items[i].Object? {
        return FailureOutcome(MalformedResponse, 200, 0.0, Named("result_not_object"), false, false);
      }
      results := results + [Result(i + 1, items[i])];
    }
    assert results == seq(|items|, i requires 0 <= i < |items| => Result(i + 1, items[i]));
    o := SearchOutcome(if |results| > 0 then Success else ZeroResults, 200, 0.0, Some(h.json(body)),
                       Metadata(body.fields), results, NoError, NoError, false, false);
  }

  /** `search_once`: the outcome recorded for each gateway reply. */
  function SearchOnce(h: Hashes, reply: Reply, resultLimit: int): SearchOutcome {
    match reply
    case CredentialMissing =>
      FailureOutcome(AccountUnavailable, 0, 0.0, Named("account_credential_missing"), false, true)
    case LimitedFor(seconds) =>
      FailureOutcome(RateLimited, 0, seconds, Named("account_rate_limited"), true, false)
    case Lost =>
      FailureOutcome(Indeterminate, 0, 0.0, RequestIndeterminate, true, false)
    case CredentialRejected =>
      FailureOutcome(AccountUnavailable, 0, 0.0, Named("account_credential_or_billing"), false, true)
    case BudgetUnavailable =>
      FailureOutcome(AccountUnavailable, 0, 0.0, Named("account_budget_unavailable"), false, true)
    case Unavailable =>
      FailureOutcome(GatewayFailure, 0, 0.0, Named("account_gateway_failure"), false, false)
    case Unredactable =>
      FailureOutcome(MalformedResponse, 200, 0.0, Named("invalid_json_shape"), false, false)
    case Payload(body) => OutcomeFromPayload(h, body, resultLimit)
  }

  // ---------------------------------------------------------------- transitions

  /** The status `append_attempt` derives for an outcome recorded as attempt `number`. */
  function StatusAfter(outcome: Transport, retryable: bool, number: int, maxAttempts: int): Status {
    if outcome.Success? then Succeeded
    else if outcome.ZeroResults? then NothingFound
    else if !retryable then NonRetryableFailure
    else if number >= maxAttempts then AttemptsExhausted
    else RetryableFailure
  }

  function NewCheckpoint(h: Hashes, m: Manifest, t: Target, query: string): Option<Checkpoint> {
    if m.schema != CURRENT_SCHEMA then None
    else
      match TaskId(h, m, t, query)
      case None => None
      case Some(id) => Some(Checkpoint(id, t, query, RequestHash(h, query, m.resultLimit), [], Pending))
  }

  function AppendAttempt(c: Checkpoint, o: SearchOutcome, started: Stamp, completed: Stamp, maxAttempts: int)
    : Option<Checkpoint>
  {
    var number := |c.attempts| + 1;
    if number > maxAttempts then None
    else
      var a := Attempt(number, started, completed, o.outcome, o.httpStatus, o.retryAfter, o.responseHash,
                       o.responseMetadata, o.results, o.errorCode, o.sanitizedError, o.retryable, o.systemic);
      Some(c.(attempts := c.attempts + [a], status := StatusAfter(o.outcome, o.retryable, number, maxAttempts)))
  }

  function Marker(number: int, started: Stamp): Attempt {
    Attempt(number, started, Blank, InFlight, 0, 0.0, None, map[], [], NoError, NoError, false, false)
  }

  function BeginAttempt(c: Checkpoint, started: Stamp, maxAttempts: int): Option<Checkpoint> {
    var number := |c.attempts| + 1;
    if number > maxAttempts then None
    else Some(c.(attempts := c.attempts + [Marker(number, started)], status := Flying))
  }

  function CompleteAttempt(c: Checkpoint, o: SearchOutcome, completed: Stamp, maxAttempts: int)
    : Option<Checkpoint>
  {
    if |c.attempts| == 0 || !c.status.Flying? then None
    else
      var pending := c.attempts[|c.attempts| - 1];
      var base := c.(attempts := c.attempts[..|c.attempts| - 1], status := Pending);
      AppendAttempt(base, o, pending.started, completed, maxAttempts)
  }

  function RecoverInFlight(c: Checkpoint, recovered: Stamp, maxAttempts: int): Option<Checkpoint> {
    if |c.attempts| == 0 || !c.status.Flying? then None
    else
      var n := |c.attempts|;
      var a := c.attempts[n - 1].(completed := recovered, outcome := Indeterminate,
                                  errorCode := ProcessInterrupted, sanitizedError := ProcessInterrupted,
                                  retryable := true);
      Some(c.(attempts := c.attempts[..n - 1] + [a],
              status := if n >= maxAttempts then AttemptsExhausted else RetryableFailure))
  }

  // ---------------------------------------------------------------- growth of the evidence

  /** `later` can follow `earlier` on disk: same task, completed attempts kept word for word, at
      most the last in-flight marker resolved, and nothing ever removed. */
  ghost predicate Extends(earlier: Checkpoint, later: Checkpoint) {
    && earlier.taskId == later.taskId && earlier.target == later.target
    && earlier.query == later.query && earlier.requestHash == later.requestHash
    && |earlier.attempts| <= |later.attempts|
    && (forall i :: 0 <= i < |earlier.attempts| ==>
          Resolves(earlier.attempts[i], later.attempts[i]))
    && (Terminal(earlier.status) ==> earlier == later)
  }

  /** An attempt stays as it is, unless it was an in-flight marker: that may gain an outcome. */
  ghost predicate Resolves(earlier: Attempt, later: Attempt) {
    if earlier.outcome.InFlight? then earlier.number == later.number && earlier.started == later.started
    else earlier == later
  }

  lemma ExtendsTransitive(a: Checkpoint, b: Checkpoint, c: Checkpoint)
    requires Extends(a, b) && Extends(b, c)
    ensures Extends(a, c)
  {
    forall i | 0 <= i < |a.attempts| ensures Resolves(a.attempts[i], c.attempts[i]) {
      assert Resolves(a.attempts[i], b.attempts[i]) && Resolves(b.attempts[i], c.attempts[i]);
    }
  }
}
