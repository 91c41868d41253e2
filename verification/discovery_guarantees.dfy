/**
 What holds over every history of a stored batch: any number of runs, any flags, a crash
 anywhere, every reply of the gateway.
 */
module DiscoveryGuarantees {
  import opened Options
  import opened DiscoveryModels
  import opened DiscoveryStore
  import opened DiscoverySteps
  import opened DiscoveryHistory

  ghost predicate Peek(s: Machine) { true }

  /** A valid stored batch no run is working on. The trigger keeps validity closed until it is needed. */
  ghost predicate AtRest(h: Hashes, m: Manifest, s: Machine) {
    && m.requestsPerMinute >= 1 && s.phase.Idle?
    && forall u: Machine {:trigger Peek(u)} :: Peek(u) ==> Inv(m, Member(h, m), s)
  }

  lemma RestingIsValid(h: Hashes, m: Manifest, s: Machine)
    requires AtRest(h, m, s)
    ensures Inv(m, Member(h, m), s) && Closed(h, m, Member(h, m))
  {
    assert Peek(s);
    MembersClosed(h, m);
  }

  // ---------------------------------------------------------------- histories and their prefixes

  lemma {:induction false} PrefixPossible(h: Hashes, m: Manifest, s: Machine, events: seq<Event>, k: nat)
    requires m.requestsPerMinute >= 1 && Possible(h, m, s, events) && k <= |events|
    ensures Possible(h, m, s, events[..k])
    decreases |events|
  {
    if k == |events| {
      assert events[..k] == events;
    } else {
      var most := events[..|events| - 1];
      PrefixPossible(h, m, s, most, k);
      assert most[..k] == events[..k];
    }
  }

  /** The machine after the first `k` events. */
  ghost function At(h: Hashes, m: Manifest, s: Machine, events: seq<Event>, k: nat): Machine
    requires m.requestsPerMinute >= 1 && Possible(h, m, s, events) && k <= |events|
  {
    PrefixPossible(h, m, s, events, k);
    Replay(h, m, s, events[..k]).value
  }

  lemma StepAt(h: Hashes, m: Manifest, s: Machine, events: seq<Event>, k: nat)
    requires m.requestsPerMinute >= 1 && Possible(h, m, s, events) && k < |events|
    ensures Apply(h, m, At(h, m, s, events, k), events[k]) == Some(At(h, m, s, events, k + 1))
  {
    PrefixPossible(h, m, s, events, k + 1);
    assert events[..k + 1][..k] == events[..k];
  }

  /** Validity is kept through every event. */
  lemma {:induction false} ReachedInv(
    h: Hashes, m: Manifest, good: Checkpoint -> bool, s: Machine, events: seq<Event>, k: nat)
    requires Closed(h, m, good) && Inv(m, good, s) && Possible(h, m, s, events) && k <= |events|
    ensures Inv(m, good, At(h, m, s, events, k))
    decreases k
  {
    if k > 0 {
      ReachedInv(h, m, good, s, events, k - 1);
      StepAt(h, m, s, events, k - 1);
      StepKeepsInv(h, m, good, At(h, m, s, events, k - 1), events[k - 1]);
    }
  }

  lemma NextExtends(h: Hashes, m: Manifest, good: Checkpoint -> bool, s: Machine, events: seq<Event>, k: nat)
    requires Closed(h, m, good) && Inv(m, good, s) && Possible(h, m, s, events) && k < |events|
    ensures TablesExtend(At(h, m, s, events, k).tasks, At(h, m, s, events, k + 1).tasks)
  {
    ReachedInv(h, m, good, s, events, k);
    StepAt(h, m, s, events, k);
    StepExtends(h, m, good, At(h, m, s, events, k), events[k]);
  }

  /** Stored evidence is only ever extended. */
  lemma {:induction false} ReachedExtends(
    h: Hashes, m: Manifest, good: Checkpoint -> bool, s: Machine, events: seq<Event>, i: nat, j: nat)
    requires Closed(h, m, good) && Inv(m, good, s) && Possible(h, m, s, events) && i <= j <= |events|
    ensures TablesExtend(At(h, m, s, events, i).tasks, At(h, m, s, events, j).tasks)
    decreases j
  {
    if i == j {
      TablesExtendReflexive(At(h, m, s, events, j).tasks);
    } else {
      ReachedExtends(h, m, good, s, events, i, j - 1);
      NextExtends(h, m, good, s, events, j - 1);
      TablesExtendTransitive(At(h, m, s, events, i).tasks, At(h, m, s, events, j - 1).tasks,
                             At(h, m, s, events, j).tasks);
    }
  }

  /** Main result: whatever happens, the batch on disk validates, and between any two moments the
      completed attempts are kept word for word and terminal tasks do not change. */
  lemma EvidenceOnlyGrows(h: Hashes, m: Manifest, s: Machine, events: seq<Event>, i: nat, j: nat)
    requires AtRest(h, m, s) && Possible(h, m, s, events) && i <= j <= |events|
    ensures ValidTasks(h, m, At(h, m, s, events, j).tasks)
    ensures TablesExtend(At(h, m, s, events, i).tasks, At(h, m, s, events, j).tasks)
  {
    RestingIsValid(h, m, s);
    ReachedInv(h, m, Member(h, m), s, events, j);
    ReachedExtends(h, m, Member(h, m), s, events, i, j);
    OpenTable(m, Member(h, m), At(h, m, s, events, j).tasks);
  }

  // ---------------------------------------------------------------- the paid-call budget

  ghost function Calls(events: seq<Event>, id: Digest): nat {
    if events == [] then 0
    else
      var e := events[|events| - 1];
      Calls(events[..|events| - 1], id) + if e.Called? && e.id == id then 1 else 0
  }

  lemma {:induction false} CallsCounted(
    h: Hashes, m: Manifest, good: Checkpoint -> bool, s: Machine, events: seq<Event>, k: nat, id: Digest)
    requires Closed(h, m, good) && Inv(m, good, s) && s.phase.Idle? && Possible(h, m, s, events)
    requires k <= |events| && id in s.tasks
    ensures id in At(h, m, s, events, k).tasks
    ensures var t := At(h, m, s, events, k);
      |s.tasks[id].attempts| + Calls(events[..k], id) + (if t.phase == Armed(id) then 1 else 0)
        <= |t.tasks[id].attempts|
    decreases k
  {
    if k > 0 {
      ReachedInv(h, m, good, s, events, k - 1);
      CallsCounted(h, m, good, s, events, k - 1, id);
      StepAt(h, m, s, events, k - 1);
      CountStep(h, m, good, At(h, m, s, events, k - 1), events[k - 1], id);
      CallsOneMore(events, k - 1, id);
    }
  }

  lemma CallsOneMore(events: seq<Event>, k: nat, id: Digest)
    requires k < |events|
    ensures Calls(events[..k + 1], id) ==
      Calls(events[..k], id) + if events[k].Called? && events[k].id == id then 1 else 0
  {
    assert events[..k + 1][..k] == events[..k];
  }

  lemma CountStep(h: Hashes, m: Manifest, good: Checkpoint -> bool, t: Machine, e: Event, id: Digest)
    requires Closed(h, m, good) && Inv(m, good, t) && Apply(h, m, t, e).Some? && id in t.tasks
    ensures var u := Apply(h, m, t, e).value;
      && id in u.tasks
      && (if u.phase == Armed(id) then 1 else 0) + (if e.Called? && e.id == id then 1 else 0)
         <= |u.tasks[id].attempts| - |t.tasks[id].attempts| + (if t.phase == Armed(id) then 1 else 0)
  {
    StepKeepsInv(h, m, good, t, e);
    StepExtends(h, m, good, t, e);
    assert Extends(t.tasks[id], Apply(h, m, t, e).value.tasks[id]);
  }

  /** Main result: over all runs and crashes together, a task is paid for at most `max_attempts`
      times, and every paid call left an attempt on disk that is never removed. */
  lemma CallBudget(h: Hashes, m: Manifest, s: Machine, events: seq<Event>, id: Digest)
    requires AtRest(h, m, s) && Possible(h, m, s, events) && id in s.tasks
    ensures id in At(h, m, s, events, |events|).tasks
    ensures |s.tasks[id].attempts| + Calls(events, id)
              <= |At(h, m, s, events, |events|).tasks[id].attempts| <= m.maxAttempts
  {
    RestingIsValid(h, m, s);
    assert events[..|events|] == events;
    CallsCounted(h, m, Member(h, m), s, events, |events|, id);
    ReachedInv(h, m, Member(h, m), s, events, |events|);
    TaskHeld(m, Member(h, m), At(h, m, s, events, |events|).tasks, id);
    assert Bounded(m, At(h, m, s, events, |events|).tasks[id]);
  }

  // ---------------------------------------------------------------- consent to retry

  /** The retry flag of the latest run begun. */
  ghost function LatestFlag(events: seq<Event>): bool {
    if events == [] then false
    else if events[|events| - 1].Start? then events[|events| - 1].retry
    else LatestFlag(events[..|events| - 1])
  }

  lemma {:induction false} FlagRemembered(h: Hashes, m: Manifest, s: Machine, events: seq<Event>, k: nat)
    requires m.requestsPerMinute >= 1 && s.phase.Idle? && Possible(h, m, s, events) && k <= |events|
    ensures var t := At(h, m, s, events, k); t.phase.Idle? || t.retry == LatestFlag(events[..k])
    decreases k
  {
    if k > 0 {
      FlagRemembered(h, m, s, events, k - 1);
      StepAt(h, m, s, events, k - 1);
      assert events[..k][..k - 1] == events[..k - 1];
    }
  }

  /** What the code has established when it calls: its marker is stored, the rate interval has
      passed, and a lost previous attempt was consented to. */
  lemma CallIsPrepared(
    h: Hashes, m: Manifest, good: Checkpoint -> bool, s: Machine, events: seq<Event>, k: nat)
    requires Closed(h, m, good) && Inv(m, good, s) && Possible(h, m, s, events)
    requires k < |events| && events[k].Called?
    ensures var t, id := At(h, m, s, events, k), events[k].id;
      && t.phase == Armed(id) && id in t.tasks && t.tasks[id].status.Flying? && Consented(t, id)
      && good(t.tasks[id])
      && events[k].at >= t.clock
      && (t.last.Some? ==> events[k].at >= t.last.value + Interval(m))
  {
    ReachedInv(h, m, good, s, events, k);
    StepAt(h, m, s, events, k);
    TaskHeld(m, good, At(h, m, s, events, k).tasks, events[k].id);
  }

  /** A valid in-flight checkpoint holds exactly one marker, its last attempt. */
  lemma OneMarker(h: Hashes, m: Manifest, c: Checkpoint)
    requires Member(h, m)(c) && c.status.Flying?
    ensures |c.attempts| >= 1 && LastAttempt(c).outcome.InFlight?
    ensures forall i :: 0 <= i < |c.attempts| - 1 ==> !c.attempts[i].outcome.InFlight?
  {
    MarkerLast(h, m, c);
    OrderCut(c.attempts);
  }

  /** Main result: a call whose previous attempt lost its response (a crash mid-call is recorded as
      one) is made only in a run that was started with the retry flag. */
  lemma LostAttemptsNeedTheFlag(h: Hashes, m: Manifest, s: Machine, events: seq<Event>, k: nat)
    requires AtRest(h, m, s) && Possible(h, m, s, events) && k < |events| && events[k].Called?
    ensures events[k].id in At(h, m, s, events, k).tasks
    ensures var a := At(h, m, s, events, k).tasks[events[k].id].attempts;
      && |a| >= 1 && a[|a| - 1].outcome.InFlight?
      && (|a| >= 2 && a[|a| - 2].outcome.Indeterminate? ==> LatestFlag(events[..k]))
      && (forall i :: 0 <= i < |a| - 1 ==> !a[i].outcome.InFlight?)
  {
    RestingIsValid(h, m, s);
    CallIsPrepared(h, m, Member(h, m), s, events, k);
    FlagRemembered(h, m, s, events, k);
    OneMarker(h, m, At(h, m, s, events, k).tasks[events[k].id]);
  }

  // ---------------------------------------------------------------- stopping

  ghost predicate NoStart(events: seq<Event>, i: nat, j: nat)
    requires j <= |events|
  {
    forall k :: i < k < j ==> !events[k].Start?
  }

  ghost predicate StopsRun(h: Hashes, m: Manifest, e: Event) {
    e.Completed? &&
    var o := SearchOnce(h, e.reply, m.resultLimit);
    o.outcome.Indeterminate? || o.systemic
  }

  lemma {:induction false} StoppedStays(h: Hashes, m: Manifest, s: Machine, events: seq<Event>, i: nat, k: nat)
    requires m.requestsPerMinute >= 1 && Possible(h, m, s, events) && i < k <= |events|
    requires StopsRun(h, m, events[i]) && NoStart(events, i, k)
    ensures var t := At(h, m, s, events, k); t.phase.Halted? || t.phase.Idle?
    decreases k
  {
    StepAt(h, m, s, events, k - 1);
    if k > i + 1 { StoppedStays(h, m, s, events, i, k - 1); }
  }

  /** Main result: once a call's response is lost, or the account refuses, no call follows in that run. */
  lemma NoCallAfterStop(h: Hashes, m: Manifest, s: Machine, events: seq<Event>, i: nat, j: nat)
    requires m.requestsPerMinute >= 1 && Possible(h, m, s, events) && i < j < |events|
    requires StopsRun(h, m, events[i]) && events[j].Called?
    ensures exists k :: i < k < j && events[k].Start?
  {
    if NoStart(events, i, j) {
      StoppedStays(h, m, s, events, i, j);
      StepAt(h, m, s, events, j);
      assert false;
    }
  }

  // ---------------------------------------------------------------- spacing

  lemma {:induction false} CompletionRemembered(
    h: Hashes, m: Manifest, s: Machine, events: seq<Event>, i: nat, k: nat)
    requires m.requestsPerMinute >= 1 && Possible(h, m, s, events) && i < k <= |events|
    requires events[i].Completed? && NoStart(events, i, k)
    ensures var t := At(h, m, s, events, k);
      t.clock >= events[i].at && t.last.Some? && t.last.value >= events[i].at
    decreases k
  {
    StepAt(h, m, s, events, k - 1);
    if k > i + 1 { CompletionRemembered(h, m, s, events, i, k - 1); }
  }

  /** Main result: within a run, every call starts at least one interval after any earlier completion. */
  lemma CallsAreSpaced(h: Hashes, m: Manifest, s: Machine, events: seq<Event>, i: nat, j: nat)
    requires AtRest(h, m, s) && Possible(h, m, s, events) && i < j < |events|
    requires events[i].Completed? && events[j].Called? && NoStart(events, i, j)
    ensures events[j].at >= events[i].at + Interval(m)
  {
    RestingIsValid(h, m, s);
    CallIsPrepared(h, m, Member(h, m), s, events, j);
    CompletionRemembered(h, m, s, events, i, j);
  }

  /** The completion of event `i` is stored, as the last attempt of its task, when it happens. */
  lemma CompletionWritten(
    h: Hashes, m: Manifest, good: Checkpoint -> bool, s: Machine, events: seq<Event>, i: nat)
    requires Closed(h, m, good) && Inv(m, good, s) && Possible(h, m, s, events)
    requires i < |events| && events[i].Completed?
    ensures var t, id := At(h, m, s, events, i + 1), events[i].id;
      && id in t.tasks && |t.tasks[id].attempts| > 0
      && LastAttempt(t.tasks[id]).completed == StampOf(events[i].at)
      && !LastAttempt(t.tasks[id]).outcome.InFlight?
  {
    ReachedInv(h, m, good, s, events, i);
    StepAt(h, m, s, events, i);
    CompletedStep(h, m, good, At(h, m, s, events, i), events[i].id, events[i].reply, events[i].at);
    NeverAMarker(h, events[i].reply, m.resultLimit);
  }

  lemma NeverAMarker(h: Hashes, reply: Reply, resultLimit: int)
    ensures !SearchOnce(h, reply, resultLimit).outcome.InFlight?
  {
  }

  lemma LastStaysStored(c: Checkpoint, later: Checkpoint)
    requires Extends(c, later) && |c.attempts| > 0 && !LastAttempt(c).outcome.InFlight?
    ensures |c.attempts| <= |later.attempts| && later.attempts[|c.attempts| - 1] == LastAttempt(c)
  {
    assert Resolves(c.attempts[|c.attempts| - 1], later.attempts[|c.attempts| - 1]);
  }

  ghost predicate Stores(tasks: TaskTable, completed: Stamp) {
    exists id, n :: id in tasks && 0 <= n < |tasks[id].attempts| && tasks[id].attempts[n].completed == completed
  }

  lemma StillStored(before: TaskTable, after: TaskTable, id: Digest, completed: Stamp)
    requires TablesExtend(before, after) && id in before && |before[id].attempts| > 0
    requires LastAttempt(before[id]).completed == completed && !LastAttempt(before[id]).outcome.InFlight?
    ensures Stores(after, completed)
  {
    LastStaysStored(before[id], after[id]);
    assert after[id].attempts[|before[id].attempts| - 1].completed == completed;
  }

  /** So it is still stored at any later moment. */
  lemma CompletionStored(
    h: Hashes, m: Manifest, good: Checkpoint -> bool, s: Machine, events: seq<Event>, i: nat, k: nat)
    requires Closed(h, m, good) && Inv(m, good, s) && Possible(h, m, s, events) && i < k <= |events|
    requires events[i].Completed?
    ensures Stores(At(h, m, s, events, k).tasks, StampOf(events[i].at))
  {
    CompletionWritten(h, m, good, s, events, i);
    ReachedExtends(h, m, good, s, events, i + 1, k);
    StillStored(At(h, m, s, events, i + 1).tasks, At(h, m, s, events, k).tasks, events[i].id, StampOf(events[i].at));
  }

  lemma {:induction false} StoredCompletionCovered(
    h: Hashes, m: Manifest, good: Checkpoint -> bool, s: Machine, events: seq<Event>, i: nat, k: nat)
    requires Closed(h, m, good) && Inv(m, good, s) && Possible(h, m, s, events) && i < k <= |events|
    requires events[i].Completed?
    ensures var t := At(h, m, s, events, k);
      t.clock >= events[i].at
      && (t.phase.Idle? || (t.last.Some? && t.last.value >= events[i].at.Floor as real))
    decreases k
  {
    StepAt(h, m, s, events, k - 1);
    if k > i + 1 {
      StoredCompletionCovered(h, m, good, s, events, i, k - 1);
      if events[k - 1].Start? {
        CompletionStored(h, m, good, s, events, i, k - 1);
      }
    }
  }

  /** Main result: across restarts and crashes the interval still holds, up to the cut of the stored
      completion to a whole second. */
  lemma CallsAreSpacedAcrossRuns(h: Hashes, m: Manifest, s: Machine, events: seq<Event>, i: nat, j: nat)
    requires AtRest(h, m, s) && Possible(h, m, s, events) && i < j < |events|
    requires events[i].Completed? && events[j].Called?
    ensures events[j].at >= events[i].at.Floor as real + Interval(m)
    ensures events[j].at > events[i].at - 1.0 + Interval(m)
  {
    RestingIsValid(h, m, s);
    CallIsPrepared(h, m, Member(h, m), s, events, j);
    StoredCompletionCovered(h, m, Member(h, m), s, events, i, j);
  }

  /** The back-off after the completion at event `i`, once its attempt was stored as retryable. */
  ghost function Backoff(h: Hashes, m: Manifest, e: Event, attempts: nat): real
    requires e.Completed? && attempts >= 1
  {
    MaxReal(SearchOnce(h, e.reply, m.resultLimit).retryAfter, Pow2(attempts - 1))
  }

  ghost predicate NoCall(events: seq<Event>, i: nat, j: nat)
    requires j <= |events|
  {
    forall k :: i < k < j ==> !events[k].Called?
  }

  /** Until the next call, a run that is retrying task `id` has its back-off in hand, or has waited it out. */
  ghost predicate Backing(t: Machine, id: Digest, delay: real, since: real) {
    match t.phase
    case Idle => true
    case Halted => true
    case Ready => t.hold == Some((id, delay)) && t.last == Some(since)
    case Armed(armed) => armed == id && t.clock >= since + delay
    case Awaiting(_) => false
  }

  lemma BackoffStep(h: Hashes, m: Manifest, t: Machine, e: Event, id: Digest, delay: real, since: real)
    requires m.requestsPerMinute >= 1 && Apply(h, m, t, e).Some? && !e.Start? && !e.Called?
    requires Backing(t, id, delay, since)
    ensures Backing(Apply(h, m, t, e).value, id, delay, since)
  {
    match e
    case Recovered(_, _) =>
    case Marked(_, _) =>
    case Completed(_, _, _) =>
    case Ended =>
  }

  lemma {:induction false} BackoffHeld(
    h: Hashes, m: Manifest, s: Machine, events: seq<Event>, i: nat, k: nat, id: Digest, delay: real, since: real)
    requires m.requestsPerMinute >= 1 && Possible(h, m, s, events) && i < k <= |events|
    requires NoStart(events, i, k) && NoCall(events, i, k)
    requires Backing(At(h, m, s, events, i + 1), id, delay, since)
    ensures Backing(At(h, m, s, events, k), id, delay, since)
    decreases k
  {
    if k > i + 1 {
      BackoffHeld(h, m, s, events, i, k - 1, id, delay, since);
      StepAt(h, m, s, events, k - 1);
      BackoffStep(h, m, At(h, m, s, events, k - 1), events[k - 1], id, delay, since);
    }
  }

  /** A retryable completion leaves its back-off behind, unless it stopped the run. */
  lemma BackoffSet(h: Hashes, m: Manifest, s: Machine, events: seq<Event>, i: nat, attempts: nat)
    requires m.requestsPerMinute >= 1 && Possible(h, m, s, events) && i < |events| && events[i].Completed?
    requires attempts >= 1
    requires var t := At(h, m, s, events, i + 1);
      events[i].id in t.tasks && t.tasks[events[i].id].status.RetryableFailure?
      && |t.tasks[events[i].id].attempts| == attempts
    ensures Backing(At(h, m, s, events, i + 1), events[i].id, Backoff(h, m, events[i], attempts), events[i].at)
  {
    StepAt(h, m, s, events, i);
  }

  lemma CompletedHasAttempts(
    h: Hashes, m: Manifest, good: Checkpoint -> bool, s: Machine, events: seq<Event>, i: nat)
    requires Closed(h, m, good) && Inv(m, good, s) && Possible(h, m, s, events)
    requires i < |events| && events[i].Completed?
    ensures events[i].id in At(h, m, s, events, i + 1).tasks
    ensures |At(h, m, s, events, i + 1).tasks[events[i].id].attempts| >= 1
  {
    ReachedInv(h, m, good, s, events, i);
    StepAt(h, m, s, events, i);
    CompletedStep(h, m, good, At(h, m, s, events, i), events[i].id, events[i].reply, events[i].at);
  }

  lemma BackoffAtCall(
    h: Hashes, m: Manifest, s: Machine, events: seq<Event>, i: nat, j: nat, attempts: nat)
    requires m.requestsPerMinute >= 1 && Possible(h, m, s, events) && i < j < |events|
    requires events[i].Completed? && events[j].Called? && NoStart(events, i, j) && NoCall(events, i, j)
    requires attempts >= 1
    requires var t := At(h, m, s, events, i + 1);
      events[i].id in t.tasks && t.tasks[events[i].id].status.RetryableFailure?
      && |t.tasks[events[i].id].attempts| == attempts
    ensures events[j].id == events[i].id && events[j].at >= events[i].at + Backoff(h, m, events[i], attempts)
  {
    BackoffSet(h, m, s, events, i, attempts);
    BackoffHeld(h, m, s, events, i, j, events[i].id, Backoff(h, m, events[i], attempts), events[i].at);
    StepAt(h, m, s, events, j);
  }

  /** Main result: the retry that follows a retryable k-th attempt in the same run is of the same task,
      and waits at least what the provider asked and at least 2^(k-1) seconds. */
  lemma RetriesBackOff(h: Hashes, m: Manifest, s: Machine, events: seq<Event>, i: nat, j: nat)
    requires AtRest(h, m, s) && Possible(h, m, s, events) && i < j < |events|
    requires events[i].Completed? && events[j].Called? && NoStart(events, i, j) && NoCall(events, i, j)
    requires events[i].id in At(h, m, s, events, i + 1).tasks
    requires At(h, m, s, events, i + 1).tasks[events[i].id].status.RetryableFailure?
    ensures events[j].id == events[i].id
    ensures var k := |At(h, m, s, events, i + 1).tasks[events[i].id].attempts|;
      k >= 1 && events[j].at >= events[i].at + Backoff(h, m, events[i], k)
  {
    RestingIsValid(h, m, s);
    CompletedHasAttempts(h, m, Member(h, m), s, events, i);
    var k := |At(h, m, s, events, i + 1).tasks[events[i].id].attempts|;
    BackoffAtCall(h, m, s, events, i, j, k);
  }
}
