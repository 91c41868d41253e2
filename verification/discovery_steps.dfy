/**
 What each checkpoint transition does to a valid checkpoint: under a clock that never runs
 backwards, the result is again valid, so the store cannot refuse it, and it only adds to the
 evidence already there.
 */
module DiscoverySteps {
  import opened Options
  import opened DiscoveryModels
  import opened DiscoveryStore

  /** No stamp of the checkpoint lies after second `now`. */
  ghost predicate NotAfter(c: Checkpoint, now: int) {
    forall i :: 0 <= i < |c.attempts| ==>
      && (c.attempts[i].started.Second? ==> c.attempts[i].started.at <= now)
      && (c.attempts[i].completed.Second? ==> c.attempts[i].completed.at <= now)
  }

  /** The response hash of a stored success is recomputed from exactly what was kept. */
  lemma PayloadRebuilt(fields: map<string, Json>, a: Attempt)
    requires "data" in fields && fields["data"].Array?
    requires a.responseMetadata == Metadata(fields)
    requires |a.results| == |fields["data"].items|
    requires forall i :: 0 <= i < |a.results| ==> a.results[i].metadata == fields["data"].items[i]
    ensures RebuiltPayload(a) == Object(fields)
  {
    var raw := seq(|a.results|, i requires 0 <= i < |a.results| => a.results[i].metadata);
    assert raw == fields["data"].items;
    assert a.responseMetadata["data" := Array(raw)] == fields;
  }

  /** The attempt recorded for an outcome. */
  function Recorded(o: SearchOutcome, number: int, started: Stamp, completed: Stamp): Attempt {
    Attempt(number, started, completed, o.outcome, o.httpStatus, o.retryAfter, o.responseHash,
            o.responseMetadata, o.results, o.errorCode, o.sanitizedError, o.retryable, o.systemic)
  }

  /** Whatever the gateway replies, the recorded attempt is valid evidence within the result limit. */
  lemma EveryReplyIsEvidence(h: Hashes, reply: Reply, resultLimit: int, number: int, started: Stamp, completed: Stamp)
    requires resultLimit >= 1
    ensures var a := Recorded(SearchOnce(h, reply, resultLimit), number, started, completed);
      AttemptEvidence(h, a) && |a.results| <= resultLimit && !a.outcome.InFlight?
  {
    var o := SearchOnce(h, reply, resultLimit);
    var a := Recorded(o, number, started, completed);
    if o.outcome.Success? || o.outcome.ZeroResults? {
      assert reply.Payload?;
      PayloadRebuilt(reply.body.fields, a);
    }
  }

  lemma OrderAppended(attempts: seq<Attempt>, a: Attempt)
    requires OrderedAttempts(attempts) && a.number == |attempts| + 1 && a.started.Second?
    requires |attempts| > 0 ==>
      var last := attempts[|attempts| - 1];
      !last.outcome.InFlight? && last.completed.Second? && last.completed.at <= a.started.at
    requires if a.outcome.InFlight? then a.completed.Blank?
             else a.completed.Second? && a.started.at <= a.completed.at
    ensures OrderedAttempts(attempts + [a])
  {
    forall i | 0 <= i < |attempts| ensures !attempts[i].outcome.InFlight? {
      if i < |attempts| - 1 { assert attempts[(i + 1) - 1].completed.Second?; }
    }
  }

  lemma OrderCut(attempts: seq<Attempt>)
    requires OrderedAttempts(attempts) && |attempts| > 0
    ensures OrderedAttempts(attempts[..|attempts| - 1])
    ensures forall i :: 0 <= i < |attempts| - 1 ==> !attempts[i].outcome.InFlight?
  {
    forall i | 0 <= i < |attempts| - 1 ensures !attempts[i].outcome.InFlight? {
      assert attempts[(i + 1) - 1].completed.Second?;
    }
  }

  lemma AllAppended(attempts: seq<Attempt>, a: Attempt, good: Attempt -> bool)
    requires forall i :: 0 <= i < |attempts| ==> good(attempts[i])
    requires good(a)
    ensures forall i :: 0 <= i < |attempts + [a]| ==> good((attempts + [a])[i])
  {
  }

  /** A checkpoint whose attempts are checked evidence in order, with the status they imply. */
  lemma StatusFits(d: Checkpoint, maxAttempts: int)
    requires d.status == ExpectedStatus(d.attempts, maxAttempts)
    ensures StatusShape(d)
  {
  }

  /** Changing only the tail of the attempts of a valid member, to valid evidence, keeps it valid. */
  lemma TailReplaced(h: Hashes, m: Manifest, c: Checkpoint, kept: nat, a: Attempt, status: Status)
    requires ValidMember(h, m, c) && kept <= |c.attempts| && kept + 1 <= m.maxAttempts
    requires AttemptEvidence(h, a) && |a.results| <= m.resultLimit
    requires OrderedAttempts(c.attempts[..kept] + [a])
    requires status == ExpectedStatus(c.attempts[..kept] + [a], m.maxAttempts)
    ensures ValidMember(h, m, c.(attempts := c.attempts[..kept] + [a], status := status))
  {
    AllAppended(c.attempts[..kept], a, (x: Attempt) => AttemptEvidence(h, x));
    AllAppended(c.attempts[..kept], a, (x: Attempt) => |x.results| <= m.resultLimit);
    StatusFits(c.(attempts := c.attempts[..kept] + [a], status := status), m.maxAttempts);
  }

  lemma BeginKeepsValid(h: Hashes, m: Manifest, c: Checkpoint, t: real)
    requires ValidMember(h, m, c) && NotAfter(c, t.Floor) && ValidManifest(m)
    requires c.status.Pending? || c.status.RetryableFailure?
    ensures BeginAttempt(c, StampOf(t), m.maxAttempts).Some?
    ensures var d := BeginAttempt(c, StampOf(t), m.maxAttempts).value;
      && ValidMember(h, m, d) && NotAfter(d, t.Floor) && Extends(c, d)
      && d.status.Flying? && |d.attempts| == |c.attempts| + 1
  {
    var n := |c.attempts|;
    var a := Marker(n + 1, StampOf(t));
    assert c.attempts[..n] == c.attempts;
    OrderAppended(c.attempts, a);
    TailReplaced(h, m, c, n, a, Flying);
  }

  ghost predicate GoodCompletion(h: Hashes, m: Manifest, c: Checkpoint, d: Checkpoint, o: SearchOutcome, t: real) {
    && ValidMember(h, m, d) && NotAfter(d, t.Floor) && Extends(c, d)
    && !d.status.Flying? && !d.status.Pending? && |d.attempts| == |c.attempts| > 0
    && d.attempts[|d.attempts| - 1] ==
         Recorded(o, |c.attempts|, c.attempts[|c.attempts| - 1].started, StampOf(t))
  }

  /** A valid in-flight checkpoint ends in its marker. */
  lemma MarkerLast(h: Hashes, m: Manifest, c: Checkpoint)
    requires ValidMember(h, m, c) && c.status.Flying?
    ensures |c.attempts| > 0 && OrderedAttempts(c.attempts)
    ensures c.attempts[|c.attempts| - 1].outcome.InFlight?
    ensures c.attempts[|c.attempts| - 1].number == |c.attempts| <= m.maxAttempts
  {
  }

  lemma OutcomeOrdered(c: Checkpoint, a: Attempt, t: real)
    requires OrderedAttempts(c.attempts) && |c.attempts| > 0 && NotAfter(c, t.Floor)
    requires c.attempts[|c.attempts| - 1].outcome.InFlight?
    requires a.number == |c.attempts| && a.started == c.attempts[|c.attempts| - 1].started
    requires a.completed == StampOf(t) && !a.outcome.InFlight?
    ensures OrderedAttempts(c.attempts[..|c.attempts| - 1] + [a])
  {
    OrderCut(c.attempts);
    OrderAppended(c.attempts[..|c.attempts| - 1], a);
  }

  lemma OutcomeExtends(c: Checkpoint, o: SearchOutcome, t: real, maxAttempts: int)
    requires 0 < |c.attempts| <= maxAttempts && c.status.Flying? && NotAfter(c, t.Floor)
    requires c.attempts[|c.attempts| - 1].outcome.InFlight? && c.attempts[|c.attempts| - 1].number == |c.attempts|
    ensures var a := Recorded(o, |c.attempts|, c.attempts[|c.attempts| - 1].started, StampOf(t));
      CompleteAttempt(c, o, StampOf(t), maxAttempts) == Some(c.(
        attempts := c.attempts[..|c.attempts| - 1] + [a],
        status := StatusAfter(o.outcome, o.retryable, |c.attempts|, maxAttempts)))
    ensures var d := CompleteAttempt(c, o, StampOf(t), maxAttempts).value; NotAfter(d, t.Floor) && Extends(c, d)
  {
  }

  lemma OutcomeKeepsValid(h: Hashes, m: Manifest, c: Checkpoint, o: SearchOutcome, t: real)
    requires ValidMember(h, m, c) && NotAfter(c, t.Floor) && c.status.Flying? && |c.attempts| > 0
    requires var a := Recorded(o, |c.attempts|, c.attempts[|c.attempts| - 1].started, StampOf(t));
      AttemptEvidence(h, a) && |a.results| <= m.resultLimit && !a.outcome.InFlight?
    ensures CompleteAttempt(c, o, StampOf(t), m.maxAttempts).Some?
    ensures GoodCompletion(h, m, c, CompleteAttempt(c, o, StampOf(t), m.maxAttempts).value, o, t)
  {
    MarkerLast(h, m, c);
    var n := |c.attempts|;
    var a := Recorded(o, n, c.attempts[n - 1].started, StampOf(t));
    OutcomeOrdered(c, a, t);
    OutcomeExtends(c, o, t, m.maxAttempts);
    TailReplaced(h, m, c, n - 1, a, StatusAfter(o.outcome, o.retryable, n, m.maxAttempts));
  }

  lemma CompleteKeepsValid(h: Hashes, m: Manifest, c: Checkpoint, reply: Reply, t: real)
    requires ValidMember(h, m, c) && NotAfter(c, t.Floor) && m.resultLimit >= 1
    requires c.status.Flying?
    ensures var o := SearchOnce(h, reply, m.resultLimit);
      && CompleteAttempt(c, o, StampOf(t), m.maxAttempts).Some?
      && GoodCompletion(h, m, c, CompleteAttempt(c, o, StampOf(t), m.maxAttempts).value, o, t)
  {
    MarkerLast(h, m, c);
    var n := |c.attempts|;
    EveryReplyIsEvidence(h, reply, m.resultLimit, n, c.attempts[n - 1].started, StampOf(t));
    OutcomeKeepsValid(h, m, c, SearchOnce(h, reply, m.resultLimit), t);
  }

  /** The marker as recovery resolves it. */
  function Interrupted(marker: Attempt, recovered: Stamp): Attempt {
    marker.(completed := recovered, outcome := Indeterminate, errorCode := ProcessInterrupted,
            sanitizedError := ProcessInterrupted, retryable := true)
  }

  lemma RecoveryExtends(c: Checkpoint, t: real, maxAttempts: int)
    requires 0 < |c.attempts| && c.status.Flying? && NotAfter(c, t.Floor)
    requires c.attempts[|c.attempts| - 1].outcome.InFlight?
    ensures RecoverInFlight(c, StampOf(t), maxAttempts) == Some(c.(
      attempts := c.attempts[..|c.attempts| - 1] + [Interrupted(c.attempts[|c.attempts| - 1], StampOf(t))],
      status := if |c.attempts| >= maxAttempts then AttemptsExhausted else RetryableFailure))
    ensures var d := RecoverInFlight(c, StampOf(t), maxAttempts).value; NotAfter(d, t.Floor) && Extends(c, d)
  {
  }

  lemma InterruptionIsEvidence(h: Hashes, m: Manifest, c: Checkpoint, t: real)
    requires ValidMember(h, m, c) && c.status.Flying?
    ensures |c.attempts| > 0
    ensures var a := Interrupted(c.attempts[|c.attempts| - 1], StampOf(t));
      AttemptEvidence(h, a) && |a.results| <= m.resultLimit
  {
    MarkerLast(h, m, c);
    assert AttemptEvidence(h, c.attempts[|c.attempts| - 1]);
  }

  lemma RecoverKeepsValid(h: Hashes, m: Manifest, c: Checkpoint, t: real)
    requires ValidMember(h, m, c) && NotAfter(c, t.Floor)
    requires c.status.Flying?
    ensures RecoverInFlight(c, StampOf(t), m.maxAttempts).Some?
    ensures var d := RecoverInFlight(c, StampOf(t), m.maxAttempts).value;
      && ValidMember(h, m, d) && NotAfter(d, t.Floor) && Extends(c, d)
      && (d.status.RetryableFailure? || d.status.AttemptsExhausted?) && |d.attempts| == |c.attempts|
      && d.attempts[|d.attempts| - 1].outcome.Indeterminate?
  {
    InterruptionIsEvidence(h, m, c, t);
    MarkerLast(h, m, c);
    var n := |c.attempts|;
    var a := Interrupted(c.attempts[n - 1], StampOf(t));
    OutcomeOrdered(c, a, t);
    RecoveryExtends(c, t, m.maxAttempts);
    TailReplaced(h, m, c, n - 1, a, if n >= m.maxAttempts then AttemptsExhausted else RetryableFailure);
  }
}
