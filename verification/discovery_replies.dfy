/**
 What each reply of the gateway leads to, over any history of runs and crashes: which replies end
 the run, which ask for the retry flag, which are waited out, and which are final.
 */
module DiscoveryReplies {
  import opened Options
  import opened DiscoveryModels
  import opened DiscoveryStore
  import opened DiscoverySteps
  import opened DiscoveryHistory
  import opened DiscoveryGuarantees

  ghost predicate StartsBetween(events: seq<Event>, i: nat, j: nat)
    requires j <= |events|
  {
    exists k :: i < k < j && events[k].Start?
  }

  /** Main result: after a reply that never came, and after the account refuses for want of a credential or
      of budget, no call follows before another run is started. */
  lemma StoppingReplyEndsTheRun(h: Hashes, m: Manifest, s: Machine, events: seq<Event>, i: nat, j: nat)
    requires AtRest(h, m, s) && Possible(h, m, s, events) && i < j < |events|
    requires events[i].Completed? && events[j].Called?
    requires var r := events[i].reply; r.Lost? || r.CredentialMissing? || r.CredentialRejected? || r.BudgetUnavailable?
    ensures StartsBetween(events, i, j)
  {
    RestingIsValid(h, m, s);
    NoCallAfterStop(h, m, s, events, i, j);
  }

  /** Main result: every other reply leaves the run going on to its next call, and each reply is recorded
      under its own name. */
  lemma ReplyIsRecorded(h: Hashes, m: Manifest, s: Machine, events: seq<Event>, i: nat)
    requires AtRest(h, m, s) && Possible(h, m, s, events) && i < |events| && events[i].Completed?
    ensures var t, r := At(h, m, s, events, i + 1), events[i].reply;
      (t.phase.Halted? <==> r.Lost? || r.CredentialMissing? || r.CredentialRejected? || r.BudgetUnavailable?)
      && (!t.phase.Halted? ==> t.phase.Ready?)
    ensures var t, r, id := At(h, m, s, events, i + 1), events[i].reply, events[i].id;
      id in t.tasks && |t.tasks[id].attempts| > 0 && Names(LastAttempt(t.tasks[id]), r)
    ensures var t, id := At(h, m, s, events, i + 1), events[i].id;
      LastAttempt(t.tasks[id]).completed == Second(events[i].at.Floor)
  {
    RestingIsValid(h, m, s);
    ReachedInv(h, m, Member(h, m), s, events, i);
    StepAt(h, m, s, events, i);
    CompletedStep(h, m, Member(h, m), At(h, m, s, events, i), events[i].id, events[i].reply, events[i].at);
    OutcomeNames(h, events[i].reply, m.resultLimit);
    SettledAttempt(
      m, At(h, m, s, events, i), events[i].id, SearchOnce(h, events[i].reply, m.resultLimit), events[i].at);
  }

  /** The outcome and error an attempt bears after a reply. */
  predicate Names(a: Attempt, r: Reply) {
    match r
    case Lost => a.outcome == Indeterminate && a.errorCode == RequestIndeterminate
    case LimitedFor(seconds) => a.outcome == RateLimited && a.retryAfter == seconds
    case CredentialMissing => a.outcome == AccountUnavailable && a.errorCode == Named("account_credential_missing")
    case CredentialRejected => a.outcome == AccountUnavailable && a.errorCode == Named("account_credential_or_billing")
    case BudgetUnavailable => a.outcome == AccountUnavailable && a.errorCode == Named("account_budget_unavailable")
    case Unavailable => a.outcome == GatewayFailure
    case Unredactable => a.outcome == MalformedResponse
    case Payload(_) => a.outcome == Success || a.outcome == ZeroResults || a.outcome == MalformedResponse
  }

  lemma OutcomeNames(h: Hashes, r: Reply, limit: int)
    ensures var o := SearchOnce(h, r, limit);
      forall a: Attempt :: a.outcome == o.outcome && a.errorCode == o.errorCode && a.retryAfter == o.retryAfter ==>
        Names(a, r)
    ensures var o := SearchOnce(h, r, limit);
      o.outcome.Indeterminate? || o.systemic <==>
        r.Lost? || r.CredentialMissing? || r.CredentialRejected? || r.BudgetUnavailable?
  {
  }

  lemma SettledAttempt(m: Manifest, t: Machine, id: Digest, o: SearchOutcome, at: real)
    requires id in t.tasks && Settle(m, t, id, o, at).Some?
    ensures var c := Settle(m, t, id, o, at).value.tasks[id];
      |c.attempts| > 0 && LastAttempt(c).outcome == o.outcome && LastAttempt(c).errorCode == o.errorCode
      && LastAttempt(c).retryAfter == o.retryAfter && LastAttempt(c).completed == Second(at.Floor)
  {
  }

  // ---------------------------------------------------------------- a reply that never came

  /** From attempt `n` on, everything of the task is a lost attempt, or the marker of the next call. */
  ghost predicate LostSince(t: Machine, id: Digest, n: nat) {
    && id in t.tasks && t.phase != Awaiting(id)
    && var a := t.tasks[id].attempts;
       1 <= n <= |a| && a[n - 1].outcome.Indeterminate?
       && forall p :: n <= p < |a| ==> a[p].outcome.Indeterminate? || a[p].outcome.InFlight?
  }

  lemma LostSettled(h: Hashes, m: Manifest, s: Machine, events: seq<Event>, i: nat)
    requires AtRest(h, m, s) && Possible(h, m, s, events) && i < |events|
    requires events[i].Completed? && events[i].reply.Lost?
    ensures var t := At(h, m, s, events, i + 1);
      events[i].id in t.tasks && LostSince(t, events[i].id, |t.tasks[events[i].id].attempts|)
  {
    RestingIsValid(h, m, s);
    ReachedInv(h, m, Member(h, m), s, events, i);
    StepAt(h, m, s, events, i);
    CompletedStep(h, m, Member(h, m), At(h, m, s, events, i), events[i].id, events[i].reply, events[i].at);
  }

  lemma LostStep(h: Hashes, m: Manifest, t: Machine, e: Event, id: Digest, n: nat)
    requires m.requestsPerMinute >= 1 && Apply(h, m, t, e).Some? && LostSince(t, id, n)
    requires e != Called(id, if e.Called? then e.at else 0.0)
    ensures LostSince(Apply(h, m, t, e).value, id, n)
  {
    match e
    case Start(_, _) =>
    case Recovered(_, _) =>
    case Marked(_, _) =>
    case Called(_, _) =>
    case Completed(_, _, _) =>
    case Ended =>
  }

  lemma {:induction false} LostStays(
    h: Hashes, m: Manifest, s: Machine, events: seq<Event>, i: nat, k: nat, id: Digest, n: nat)
    requires m.requestsPerMinute >= 1 && Possible(h, m, s, events) && i < k <= |events|
    requires LostSince(At(h, m, s, events, i + 1), id, n)
    requires forall p :: i < p < k && events[p].Called? ==> events[p].id != id
    ensures LostSince(At(h, m, s, events, k), id, n)
    decreases k
  {
    if k > i + 1 {
      LostStays(h, m, s, events, i, k - 1, id, n);
      StepAt(h, m, s, events, k - 1);
      LostStep(h, m, At(h, m, s, events, k - 1), events[k - 1], id, n);
    }
  }

  /** Main result: the next call of a task whose response was lost is made in a run that was started with
      the retry flag, however many runs and crashes lie between. */
  lemma LostReplyNeedsTheFlag(h: Hashes, m: Manifest, s: Machine, events: seq<Event>, i: nat, j: nat)
    requires AtRest(h, m, s) && Possible(h, m, s, events) && i < j < |events|
    requires events[i].Completed? && events[i].reply.Lost?
    requires events[j].Called? && events[j].id == events[i].id
    requires forall p :: i < p < j && events[p].Called? ==> events[p].id != events[i].id
    ensures StartsBetween(events, i, j) && LatestFlag(events[..j])
  {
    StoppingReplyEndsTheRun(h, m, s, events, i, j);
    LostSettled(h, m, s, events, i);
    var id := events[i].id;
    LostStays(h, m, s, events, i, j, id, |At(h, m, s, events, i + 1).tasks[id].attempts|);
    LostAttemptsNeedTheFlag(h, m, s, events, j);
  }

  // ---------------------------------------------------------------- waiting

  /** A rate-limited attempt leaves the task retryable exactly while an attempt is left. */
  lemma LimitedSettled(h: Hashes, m: Manifest, s: Machine, events: seq<Event>, i: nat)
    requires AtRest(h, m, s) && Possible(h, m, s, events) && i < |events|
    requires events[i].Completed? && events[i].reply.LimitedFor?
    ensures var t := At(h, m, s, events, i + 1);
      && events[i].id in t.tasks && |t.tasks[events[i].id].attempts| >= 1
      && (t.tasks[events[i].id].status.RetryableFailure? <==> |t.tasks[events[i].id].attempts| < m.maxAttempts)
  {
    RestingIsValid(h, m, s);
    ReachedInv(h, m, Member(h, m), s, events, i);
    StepAt(h, m, s, events, i);
    CompletedStep(h, m, Member(h, m), At(h, m, s, events, i), events[i].id, events[i].reply, events[i].at);
  }

  lemma FirstPowers()
    ensures Pow2(0) == 1.0 && Pow2(1) == 2.0
  {
    assert Pow2(1) == 2.0 * Pow2(0);
  }

  /** Main result: after a rate limit with an attempt left, the run's next call is of the same task and
      waits as long as the gateway said, one second after the first attempt, two after the second. */
  lemma LimitIsWaitedOut(h: Hashes, m: Manifest, s: Machine, events: seq<Event>, i: nat, j: nat)
    requires AtRest(h, m, s) && Possible(h, m, s, events) && i < j < |events|
    requires events[i].Completed? && events[i].reply.LimitedFor?
    requires events[j].Called? && NoStart(events, i, j) && NoCall(events, i, j)
    requires events[i].id in At(h, m, s, events, i + 1).tasks
    requires |At(h, m, s, events, i + 1).tasks[events[i].id].attempts| < m.maxAttempts
    ensures events[j].id == events[i].id && events[j].at >= events[i].at + events[i].reply.seconds
    ensures var k := |At(h, m, s, events, i + 1).tasks[events[i].id].attempts|;
      && 1 <= k <= 2 && events[j].at >= events[i].at + (if k == 1 then 1.0 else 2.0)
  {
    LimitedSettled(h, m, s, events, i);
    RetriesBackOff(h, m, s, events, i, j);
    RestingIsValid(h, m, s);
    FirstPowers();
    var k := |At(h, m, s, events, i + 1).tasks[events[i].id].attempts|;
    assert k == 1 || k == 2;
    assert Backoff(h, m, events[i], k) >= events[i].reply.seconds && Backoff(h, m, events[i], k) >= Pow2(k - 1);
  }

  /** Main result: in one run, the starts of calls stay within the configured rate: between a completion and
      any later call lies at least a minute divided by the requests per minute. */
  lemma RateIsKept(h: Hashes, m: Manifest, s: Machine, events: seq<Event>, i: nat, j: nat)
    requires AtRest(h, m, s) && Possible(h, m, s, events) && i < j < |events|
    requires events[i].Completed? && events[j].Called? && NoStart(events, i, j)
    ensures (events[j].at - events[i].at) * (m.requestsPerMinute as real) >= 60.0
  {
    CallsAreSpaced(h, m, s, events, i, j);
    RestingIsValid(h, m, s);
    var rate, gap := m.requestsPerMinute as real, events[j].at - events[i].at;
    assert Interval(m) * rate == 60.0;
    assert (gap - Interval(m)) * rate >= 0.0;
  }

  // ---------------------------------------------------------------- final replies

  /** The task has been decided. */
  ghost predicate Decided(t: Machine, id: Digest) {
    id in t.tasks && Terminal(t.tasks[id].status) && t.phase != Armed(id) && t.phase != Awaiting(id)
  }

  lemma DecidedStep(h: Hashes, m: Manifest, t: Machine, e: Event, id: Digest)
    requires m.requestsPerMinute >= 1 && Apply(h, m, t, e).Some? && Decided(t, id)
    ensures Decided(Apply(h, m, t, e).value, id) && (e.Called? ==> e.id != id)
  {
    match e
    case Start(_, _) =>
    case Recovered(_, _) =>
    case Marked(_, _) =>
    case Called(_, _) =>
    case Completed(_, _, _) =>
    case Ended =>
  }

  lemma {:induction false} DecidedStays(
    h: Hashes, m: Manifest, s: Machine, events: seq<Event>, i: nat, k: nat, id: Digest)
    requires m.requestsPerMinute >= 1 && Possible(h, m, s, events) && i < k <= |events|
    requires Decided(At(h, m, s, events, i + 1), id)
    ensures Decided(At(h, m, s, events, k), id)
    decreases k
  {
    if k > i + 1 {
      DecidedStays(h, m, s, events, i, k - 1, id);
      StepAt(h, m, s, events, k - 1);
      DecidedStep(h, m, At(h, m, s, events, k - 1), events[k - 1], id);
    }
  }

  lemma FinalOutcome(h: Hashes, reply: Reply, limit: int)
    requires !reply.Lost? && !reply.LimitedFor?
    ensures !SearchOnce(h, reply, limit).retryable
  {
  }

  lemma UnretryableSettles(m: Manifest, t: Machine, id: Digest, o: SearchOutcome, at: real)
    requires id in t.tasks && Settle(m, t, id, o, at).Some? && !o.retryable
    ensures Decided(Settle(m, t, id, o, at).value, id)
  {
  }

  lemma FinalSettled(h: Hashes, m: Manifest, s: Machine, events: seq<Event>, i: nat)
    requires AtRest(h, m, s) && Possible(h, m, s, events) && i < |events|
    requires events[i].Completed? && !events[i].reply.Lost? && !events[i].reply.LimitedFor?
    ensures Decided(At(h, m, s, events, i + 1), events[i].id)
  {
    var t, id, o := At(h, m, s, events, i), events[i].id, SearchOnce(h, events[i].reply, m.resultLimit);
    FinalOutcome(h, events[i].reply, m.resultLimit);
    StepAt(h, m, s, events, i);
    UnretryableSettles(m, t, id, o, events[i].at);
  }

  /** Main result: any other reply decides the task: it is never called again, in this run or a later one. */
  lemma OtherRepliesAreFinal(h: Hashes, m: Manifest, s: Machine, events: seq<Event>, i: nat, j: nat)
    requires AtRest(h, m, s) && Possible(h, m, s, events) && i < j < |events|
    requires events[i].Completed? && !events[i].reply.Lost? && !events[i].reply.LimitedFor?
    requires events[j].Called?
    ensures events[j].id != events[i].id
  {
    RestingIsValid(h, m, s);
    FinalSettled(h, m, s, events, i);
    DecidedStays(h, m, s, events, i, j, events[i].id);
    StepAt(h, m, s, events, j);
    DecidedStep(h, m, At(h, m, s, events, j), events[j], events[i].id);
  }

  // ---------------------------------------------------------------- payloads

  /** A successful answer with these results, within the limit. */
  predicate Carries(body: Json, items: seq<Json>, limit: int) {
    && body.Object? && "success" in body.fields && body.fields["success"] == Bool(true)
    && "data" in body.fields && body.fields["data"] == Array(items)
    && |items| <= limit && forall i :: 0 <= i < |items| ==> items[i].Object?
  }

  /** Main result: a payload is evidence of success or of an empty answer exactly if it carries results
      within the limit, and then each of them is kept in order; any other payload is a malformed response
      that keeps nothing. */
  lemma PayloadOutcome(h: Hashes, body: Json, limit: int)
    ensures var o := SearchOnce(h, Payload(body), limit);
      && (o.outcome.Success? <==> exists items :: items != [] && Carries(body, items, limit))
      && (o.outcome.ZeroResults? <==> Carries(body, [], limit))
      && (o.outcome.MalformedResponse? <==> !exists items :: Carries(body, items, limit))
      && (o.outcome.MalformedResponse? ==> o.results == [] && o.responseMetadata == map[] && o.responseHash.None?)
      && forall items :: Carries(body, items, limit) ==>
           |o.results| == |items| && (forall i :: 0 <= i < |items| ==> o.results[i] == Result(i + 1, items[i]))
           && o.responseHash == Some(h.json(body)) && o.responseMetadata == body.fields - {"data"}
  {
    var o := SearchOnce(h, Payload(body), limit);
    if body.Object? && "data" in body.fields && body.fields["data"].Array? {
      var found := body.fields["data"].items;
      assert body.fields["data"] == Array(found);
      assert forall items :: Carries(body, items, limit) ==> items == found;
      if Carries(body, found, limit) { assert o.responseMetadata == body.fields - {"data"}; }
    }
  }
}
