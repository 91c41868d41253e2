/**
 Running a planned batch. `Worker.ExecuteBatch` is the loop of the source, with the
 clock, the sleeper, the gateway and crashes left to chance; it is proved to produce only
 histories `DiscoveryHistory` allows, so the guarantees hold of everything it does.
 */
module DiscoveryRun {
  import opened Options
  import opened DiscoveryModels
  import opened DiscoveryStore
  import opened DiscoverySteps
  import opened DiscoveryHistory
  import opened DiscoveryGuarantees
  import opened ShardedRows

  datatype RunResult = Refused | Finished | Raised | Crashed

  lemma ReplayOne(h: Hashes, m: Manifest, s: Machine, events: seq<Event>, e: Event)
    requires m.requestsPerMinute >= 1 && Possible(h, m, s, events)
    ensures Replay(h, m, s, events + [e]) == Apply(h, m, Replay(h, m, s, events).value, e)
  {
    assert (events + [e])[..|events|] == events;
  }

  lemma SortedById(cs: seq<Checkpoint>, tasks: TaskTable, i: nat)
    requires Lists(cs, tasks, IdOf) && i < |cs|
    ensures cs[i].taskId in tasks && tasks[cs[i].taskId] == cs[i]
    ensures forall j :: 0 <= j < |cs| && j != i ==> cs[j].taskId != cs[i].taskId
  {
    assert cs[i] in cs;
    forall j | 0 <= j < |cs| && j != i ensures cs[j].taskId != cs[i].taskId {
      if j < i { assert IdOf(cs[j]) < IdOf(cs[i]); } else { assert IdOf(cs[i]) < IdOf(cs[j]); }
    }
  }

  ghost predicate Asked(c: Checkpoint) { true }

  /** `good` is the judgement of `validate_batch`; the trigger keeps its definition out of proofs
      that only pass the judgement along. */
  ghost predicate Judges(h: Hashes, m: Manifest, good: Checkpoint -> bool) {
    forall c: Checkpoint {:trigger Asked(c)} :: good(c) <==> ValidMember(h, m, c)
  }

  lemma JudgedTable(h: Hashes, m: Manifest, good: Checkpoint -> bool, tasks: TaskTable)
    requires Judges(h, m, good)
    ensures TableValid(m, tasks, good) <==> TableValid(m, tasks, Member(h, m))
  {
    forall id | id in tasks ensures good(tasks[id]) <==> Member(h, m)(tasks[id]) {
      assert Asked(tasks[id]);
    }
  }

  // ---------------------------------------------------------------- a store with its history

  datatype Trace = Trace(origin: Machine, events: seq<Event>, machine: Machine)

  /** The shards load as these tasks. */
  ghost predicate OnDisk(h: Hashes, shards: Shards, tasks: TaskTable) {
    LoadableBatch(h, shards) && Tasks(h, shards) == tasks
  }

  /** The events lead from a batch at rest to the machine. */
  ghost predicate Happened(h: Hashes, m: Manifest, good: Checkpoint -> bool, t: Trace) {
    && Inv(m, good, t.origin) && t.origin.phase.Idle?
    && Inv(m, good, t.machine)
    && Replay(h, m, t.origin, t.events) == Some(t.machine)
  }

  ghost predicate Examined(t: Trace) { true }

  ghost predicate Opened(shards: Shards) { true }

  /** `reached` is `Happened`, kept closed the same way as `good`. */
  ghost predicate Reaches(h: Hashes, m: Manifest, good: Checkpoint -> bool, reached: Trace -> bool) {
    && Closed(h, m, good)
    && forall t: Trace {:trigger Examined(t)} :: reached(t) <==> Happened(h, m, good, t)
  }

  /** `stored` is `OnDisk`. */
  ghost predicate Shows(h: Hashes, stored: (Shards, TaskTable) -> bool) {
    forall shards: Shards, tasks: TaskTable {:trigger Opened(shards), stored(shards, tasks)} ::
      stored(shards, tasks) <==> OnDisk(h, shards, tasks)
  }

  /** The judgement, the disk and the history as a worker passes them along. */
  datatype View = View(
    good: Checkpoint -> bool, stored: (Shards, TaskTable) -> bool, reached: Trace -> bool)

  ghost predicate Looking(v: View) { true }

  /** The three are what they stand for. */
  ghost predicate Genuine(h: Hashes, m: Manifest, v: View) {
    forall w: View {:trigger Looking(w)} ::
      Looking(w) ==> Judges(h, m, v.good) && Shows(h, v.stored) && Reaches(h, m, v.good, v.reached)
  }

  lemma Look(h: Hashes, m: Manifest, v: View)
    requires Genuine(h, m, v)
    ensures Judges(h, m, v.good) && Shows(h, v.stored) && Reaches(h, m, v.good, v.reached)
  {
    assert Looking(v);
  }

  lemma Unseal(h: Hashes, m: Manifest, v: View, t: Trace)
    requires Genuine(h, m, v) && v.reached(t)
    ensures Happened(h, m, v.good, t) && Closed(h, m, v.good)
  {
    Look(h, m, v);
    assert Examined(t);
  }

  lemma AdvanceOpen(h: Hashes, m: Manifest, good: Checkpoint -> bool, t: Trace, e: Event, next: Machine)
    requires Happened(h, m, good, t)
    requires Apply(h, m, t.machine, e) == Some(next) && Inv(m, good, next)
    ensures Happened(h, m, good, Trace(t.origin, t.events + [e], next))
  {
    ReplayOne(h, m, t.origin, t.events, e);
  }

  lemma Seal(h: Hashes, m: Manifest, v: View, t: Trace)
    requires Genuine(h, m, v) && Happened(h, m, v.good, t)
    ensures v.reached(t)
  {
    Look(h, m, v);
    assert Examined(t);
  }

  /** The history with its next event. */
  lemma Advance(h: Hashes, m: Manifest, v: View, t: Trace, e: Event, next: Machine)
    requires Genuine(h, m, v) && v.reached(t)
    requires m.requestsPerMinute >= 1 && Apply(h, m, t.machine, e) == Some(next) && Inv(m, v.good, next)
    ensures v.reached(Trace(t.origin, t.events + [e], next))
  {
    Unseal(h, m, v, t);
    AdvanceOpen(h, m, v.good, t, e, next);
    Seal(h, m, v, Trace(t.origin, t.events + [e], next));
  }

  lemma Current(h: Hashes, m: Manifest, v: View, t: Trace)
    requires Genuine(h, m, v) && v.reached(t)
    ensures Inv(m, v.good, t.machine) && Closed(h, m, v.good)
  {
    Unseal(h, m, v, t);
  }

  lemma OpenStore(h: Hashes, m: Manifest, v: View, shards: Shards, tasks: TaskTable)
    requires Genuine(h, m, v) && v.stored(shards, tasks)
    ensures OnDisk(h, shards, tasks)
  {
    Look(h, m, v);
    assert Opened(shards);
  }

  lemma CloseStore(h: Hashes, m: Manifest, v: View, shards: Shards, tasks: TaskTable)
    requires Genuine(h, m, v) && OnDisk(h, shards, tasks)
    ensures v.stored(shards, tasks)
  {
    Look(h, m, v);
    assert Opened(shards);
    assert v.stored(shards, tasks) <==> OnDisk(h, shards, tasks);
  }

  lemma ViewedTable(h: Hashes, m: Manifest, v: View, tasks: TaskTable)
    requires Genuine(h, m, v)
    ensures TableValid(m, tasks, v.good) <==> TableValid(m, tasks, Member(h, m))
  {
    Look(h, m, v);
    JudgedTable(h, m, v.good, tasks);
  }

  /** `replace_checkpoint` on a batch that stays valid. */
  method Replace(store: BatchStore, m: Manifest, c: Checkpoint, ghost before: TaskTable)
    requires store.manifest == Some(m) && m.schema == CURRENT_SCHEMA && OnDisk(store.h, store.shards, before)
    requires c.taskId in before && before[c.taskId].target == c.target
    requires ValidTasks(store.h, m, before[c.taskId := c])
    modifies store`shards
    ensures OnDisk(store.h, store.shards, before[c.taskId := c])
  {
    var ok := store.ReplaceCheckpoint(c);
    assert ok;
  }

  /** `execute_batch` up to the stored batch: the schema check, then `initialize_batch`. */
  method Initialize(store: BatchStore, m: Manifest, cs: seq<Checkpoint>) returns (ok: bool)
    requires store.manifest.Some? ==> SoundBatch(store.h, store.manifest.value, store.shards)
    modifies store
    ensures ok <==> Accepted(store.h, m, cs, old(store.manifest))
    ensures old(store.manifest).Some? || !ok ==>
      store.manifest == old(store.manifest) && store.shards == old(store.shards)
    ensures ok ==> store.manifest == Some(m)
    ensures ok && old(store.manifest).None? ==>
      SoundBatch(store.h, m, store.shards) && forall c :: Holds(store.shards, c) <==> c in cs
  {
    ok := m.schema == CURRENT_SCHEMA;
    if ok { ok := store.InitializeBatch(m, cs); }
  }

  ghost predicate JustStopped(h: Hashes, m: Manifest, events: seq<Event>) {
    events != [] && StopsRun(h, m, events[|events| - 1])
  }

  /** What ends a run: an answer that never came, or one that says every further call would fail. */
  predicate StopsAfter(o: SearchOutcome) { o.outcome.Indeterminate? || o.systemic }

  ghost predicate Holding(t: Trace, c: Checkpoint) { c.taskId in t.machine.tasks && t.machine.tasks[c.taskId] == c }

  /** `after` continues the history `before`, in the same run. */
  ghost predicate Later(before: Trace, after: Trace) {
    && before.origin == after.origin && before.events <= after.events
    && before.machine.retry == after.machine.retry
  }

  /** `d` replaced the stored checkpoint of its task. */
  ghost predicate OnlyChanged(before: Trace, after: Trace, d: Checkpoint) {
    d.taskId in before.machine.tasks && after.machine.tasks == before.machine.tasks[d.taskId := d]
  }

  /** Two changes of one task in a row are one. */
  lemma ChangedTwice(first: Trace, second: Trace, third: Trace, c: Checkpoint, d: Checkpoint)
    requires Later(first, second) && OnlyChanged(first, second, c)
    requires Later(second, third) && OnlyChanged(second, third, d) && c.taskId == d.taskId
    ensures Later(first, third) && OnlyChanged(first, third, d)
  {
    assert first.machine.tasks[c.taskId := c][d.taskId := d] == first.machine.tasks[d.taskId := d];
  }

  ghost predicate Delayed(s: Machine, id: Digest, retryDelay: real) {
    if s.hold.None? then retryDelay == 0.0 else s.hold == Some((id, retryDelay))
  }

  lemma WithinBudget(h: Hashes, m: Manifest, v: View, t: Trace, c: Checkpoint)
    requires Genuine(h, m, v) && v.reached(t) && Holding(t, c)
    ensures Bounded(m, c)
  {
    Current(h, m, v, t);
    TaskHeld(m, v.good, t.machine.tasks, c.taskId);
  }

  /** Only the task `id` may differ. */
  ghost predicate OthersKept(before: Trace, after: Trace, id: Digest) {
    && before.machine.tasks.Keys == after.machine.tasks.Keys
    && forall k :: k in before.machine.tasks && k != id ==> before.machine.tasks[k] == after.machine.tasks[k]
  }

  ghost predicate WasStopped(h: Hashes, m: Manifest, events: seq<Event>) {
    events != [] && JustStopped(h, m, events[..|events| - 1])
  }

  ghost predicate NoneAfter(cs: seq<Checkpoint>, now: int) { forall c :: c in cs ==> NotAfter(c, now) }

  /** When `execute_batch` agrees to run: the batch is current and valid, and is the one stored, if any. */
  ghost predicate Accepted(h: Hashes, m: Manifest, cs: seq<Checkpoint>, stored: Option<Manifest>) {
    m.schema == CURRENT_SCHEMA && ValidBatch(h, m, cs) && (stored.Some? ==> stored == Some(m))
  }

  ghost predicate OriginOf(t: Trace, cs: seq<Checkpoint>) {
    forall c: Checkpoint :: c.taskId in t.origin.tasks && t.origin.tasks[c.taskId] == c <==> c in cs
  }

  function Fresh(tasks: TaskTable, clock: real): Machine { Machine(tasks, clock, Idle, false, None, None) }

  ghost function StoredView(h: Hashes): (Shards, TaskTable) -> bool { (shards, tasks) => OnDisk(h, shards, tasks) }

  ghost function ReachedView(h: Hashes, m: Manifest): Trace -> bool { t => Happened(h, m, Member(h, m), t) }

  lemma StoredViewed(h: Hashes, shards: Shards, tasks: TaskTable)
    requires OnDisk(h, shards, tasks)
    ensures Shows(h, StoredView(h)) && StoredView(h)(shards, tasks)
  {
  }

  lemma MembersJudge(h: Hashes, m: Manifest)
    ensures Judges(h, m, Member(h, m))
  {
  }

  lemma FreshReached(h: Hashes, m: Manifest, tasks: TaskTable, clock: real)
    requires Inv(m, Member(h, m), Fresh(tasks, clock))
    ensures Reaches(h, m, Member(h, m), ReachedView(h, m))
    ensures ReachedView(h, m)(Trace(Fresh(tasks, clock), [], Fresh(tasks, clock)))
  {
    MembersClosed(h, m);
  }

  /** A new batch starts an empty history. */
  lemma FreshHistory(h: Hashes, m: Manifest, shards: Shards, cs: seq<Checkpoint>, clock: real)
    returns (v: View, t: Trace)
    requires m.schema == CURRENT_SCHEMA && SoundBatch(h, m, shards) && NoneAfter(cs, clock.Floor)
    requires forall c :: Holds(shards, c) <==> c in cs
    ensures Genuine(h, m, v) && v.stored(shards, t.machine.tasks) && v.reached(t)
    ensures t.machine.clock == clock && t.machine.phase.Idle? && t.events == [] && OriginOf(t, cs)
  {
    var tasks := Tasks(h, shards);
    FreshInv(h, m, shards, cs, clock);
    StoredViewed(h, shards, tasks);
    MembersJudge(h, m);
    FreshReached(h, m, tasks, clock);
    v := View(Member(h, m), StoredView(h), ReachedView(h, m));
    t := Trace(Fresh(tasks, clock), [], Fresh(tasks, clock));
  }

  lemma FreshInv(h: Hashes, m: Manifest, shards: Shards, cs: seq<Checkpoint>, clock: real)
    requires m.schema == CURRENT_SCHEMA && SoundBatch(h, m, shards) && NoneAfter(cs, clock.Floor)
    requires forall c :: Holds(shards, c) <==> c in cs
    ensures OnDisk(h, shards, Tasks(h, shards)) && Inv(m, Member(h, m), Fresh(Tasks(h, shards), clock))
    ensures OriginOf(Trace(Fresh(Tasks(h, shards), clock), [], Fresh(Tasks(h, shards), clock)), cs)
  {
    var tasks := Tasks(h, shards);
    forall id | id in tasks ensures NotAfter(tasks[id], clock.Floor) {
      assert Holds(shards, tasks[id]);
    }
  }

  /** A store with a history validates, under its own manifest. */
  lemma StoredIsSound(h: Hashes, m: Manifest, v: View, shards: Shards, t: Trace)
    requires Genuine(h, m, v) && v.stored(shards, t.machine.tasks) && v.reached(t)
    ensures SoundBatch(h, m, shards)
  {
    OpenStore(h, m, v, shards, t.machine.tasks);
    Current(h, m, v, t);
    OpenTable(m, v.good, t.machine.tasks);
    ViewedTable(h, m, v, t.machine.tasks);
  }

  lemma Bounds(h: Hashes, m: Manifest, v: View, t: Trace)
    requires Genuine(h, m, v) && v.reached(t)
    ensures m.requestsPerMinute >= 1
  {
    Current(h, m, v, t);
  }

  /** The first `i` tasks are done, the others as they were listed. */
  ghost predicate Progress(listed: seq<Checkpoint>, tasks: TaskTable, i: nat)
    requires i <= |listed|
  {
    && (forall id :: id in tasks <==> exists j :: 0 <= j < |listed| && listed[j].taskId == id)
    && (forall j, k :: 0 <= j < k < |listed| ==> listed[j].taskId != listed[k].taskId)
    && (forall j :: 0 <= j < i ==> Terminal(tasks[listed[j].taskId].status))
    && (forall j :: i <= j < |listed| ==> tasks[listed[j].taskId] == listed[j])
  }

  lemma Listed(listed: seq<Checkpoint>, tasks: TaskTable)
    requires Lists(listed, tasks, IdOf) && forall id :: id in tasks ==> tasks[id].taskId == id
    ensures Progress(listed, tasks, 0)
  {
    forall j | 0 <= j < |listed| ensures listed[j].taskId in tasks && tasks[listed[j].taskId] == listed[j] {
      SortedById(listed, tasks, j);
    }
    forall j, k | 0 <= j < k < |listed| ensures listed[j].taskId != listed[k].taskId {
      SortedById(listed, tasks, k);
    }
    forall id | id in tasks ensures exists j :: 0 <= j < |listed| && listed[j].taskId == id {
      assert tasks[id] in listed;
    }
  }

  /** The later of a known completion and those of these attempts. */
  function LatestIn(attempts: seq<Attempt>, known: Option<int>): Option<int> {
    if attempts == [] then known
    else
      var before := LatestIn(attempts[..|attempts| - 1], known);
      var last := attempts[|attempts| - 1].completed;
      if last.Second? && (before.None? || before.value < last.at) then Some(last.at) else before
  }

  function LatestOf(cs: seq<Checkpoint>, known: Option<int>): Option<int> {
    if cs == [] then known
    else LatestIn(cs[|cs| - 1].attempts, LatestOf(cs[..|cs| - 1], known))
  }

  lemma {:induction false} LatestInCovers(attempts: seq<Attempt>, known: Option<int>)
    ensures var r := LatestIn(attempts, known);
      && (known.Some? ==> r.Some? && known.value <= r.value)
      && forall i :: 0 <= i < |attempts| && attempts[i].completed.Second? ==>
           r.Some? && attempts[i].completed.at <= r.value
  {
    if attempts != [] {
      LatestInCovers(attempts[..|attempts| - 1], known);
      forall i | 0 <= i < |attempts| - 1 ensures attempts[..|attempts| - 1][i] == attempts[i] {}
    }
  }

  lemma {:induction false} LatestOfCovers(cs: seq<Checkpoint>, known: Option<int>)
    ensures var r := LatestOf(cs, known);
      && (known.Some? ==> r.Some? && known.value <= r.value)
      && forall k, i | 0 <= k < |cs| && 0 <= i < |cs[k].attempts| ::
           cs[k].attempts[i].completed.Second? ==> r.Some? && cs[k].attempts[i].completed.at <= r.value
  {
    if cs != [] {
      var most := cs[..|cs| - 1];
      LatestOfCovers(most, known);
      LatestInCovers(cs[|cs| - 1].attempts, LatestOf(most, known));
      forall k, i | 0 <= k < |cs| - 1 && 0 <= i < |cs[k].attempts| ensures most[k].attempts[i] == cs[k].attempts[i] {}
    }
  }

  /** The latest completion found covers every completion stored in the batch. */
  lemma LatestCovers(cs: seq<Checkpoint>, tasks: TaskTable, known: Option<int>)
    requires Lists(cs, tasks, IdOf) && forall id :: id in tasks ==> tasks[id].taskId == id
    ensures CoversCompletions(tasks, LatestOf(cs, known))
  {
    LatestOfCovers(cs, known);
    forall id | id in tasks ensures exists k :: 0 <= k < |cs| && cs[k] == tasks[id] {
      assert tasks[id] in cs;
    }
  }

  /** The tasks a run refuses to touch without the retry flag. */
  ghost predicate Unresolved(tasks: TaskTable) {
    exists id :: id in tasks && (tasks[id].status.Flying? || ResponseLost(tasks[id]))
  }

  ghost predicate AllTerminal(tasks: TaskTable) { forall id :: id in tasks ==> Terminal(tasks[id].status) }

  lemma ProgressStep(listed: seq<Checkpoint>, before: Trace, after: Trace, i: nat)
    requires i < |listed| && Progress(listed, before.machine.tasks, i)
    requires OthersKept(before, after, listed[i].taskId)
    requires listed[i].taskId in after.machine.tasks && Terminal(after.machine.tasks[listed[i].taskId].status)
    ensures Progress(listed, after.machine.tasks, i + 1)
  {
  }

  lemma RecoverStored(h: Hashes, m: Manifest, good: Checkpoint -> bool, s: Machine, c: Checkpoint, at: real)
    requires Closed(h, m, good) && Inv(m, good, s) && s.phase.Ready? && s.hold.None? && s.retry
    requires c.taskId in s.tasks && s.tasks[c.taskId] == c && at >= s.clock && c.status.Flying?
    ensures RecoverInFlight(c, StampOf(at), m.maxAttempts).Some?
    ensures var d := RecoverInFlight(c, StampOf(at), m.maxAttempts).value;
      && d.taskId == c.taskId && d.target == c.target && ResponseLost(d)
      && (d.status.RetryableFailure? || d.status.AttemptsExhausted?)
      && var t := s.(tasks := s.tasks[c.taskId := d], clock := at,
                     last := Some(if s.last.None? then at else MaxReal(s.last.value, at)));
         Apply(h, m, s, Recovered(c.taskId, at)) == Some(t) && Inv(m, good, t)
  {
    LaterIsTimely(s.tasks, s.clock, at);
    TaskHeld(m, good, s.tasks, c.taskId);
    assert RecoverKeeps(m, good, c, at);
    RecoveredStep(h, m, good, s, c.taskId, at);
  }

  lemma ArmStored(h: Hashes, m: Manifest, good: Checkpoint -> bool, s: Machine, c: Checkpoint, at: real)
    requires Closed(h, m, good) && Inv(m, good, s) && s.phase.Ready?
    requires c.taskId in s.tasks && s.tasks[c.taskId] == c && at >= s.clock
    requires Eligible(c, s.retry) && Rested(m, s, c.taskId, at)
    ensures BeginAttempt(c, StampOf(at), m.maxAttempts).Some?
    ensures var d := BeginAttempt(c, StampOf(at), m.maxAttempts).value;
      && d.taskId == c.taskId && d.target == c.target
      && var t := s.(tasks := s.tasks[c.taskId := d], clock := at, phase := Armed(c.taskId));
         Apply(h, m, s, Marked(c.taskId, at)) == Some(t) && Inv(m, good, t)
  {
    MarkedStep(h, m, good, s, c.taskId, at);
  }

  lemma CallStored(h: Hashes, m: Manifest, good: Checkpoint -> bool, s: Machine, id: Digest, at: real)
    requires Inv(m, good, s) && s.phase == Armed(id) && at >= s.clock
    ensures var t := s.(clock := at, phase := Awaiting(id));
      Apply(h, m, s, Called(id, at)) == Some(t) && Inv(m, good, t)
  {
    CalledStep(h, m, good, s, id, at);
  }

  /** The machine after outcome `o` was stored as the last attempt of `d`. */
  ghost predicate SettledAs(m: Manifest, d: Checkpoint, o: SearchOutcome, t: Machine, at: real) {
    && !d.status.Flying? && !d.status.Pending? && |d.attempts| > 0
    && LastAttempt(d).outcome == o.outcome
    && t.phase == (if StopsAfter(o) then Halted else Ready)
    && t.last == Some(at)
    && t.hold == (if d.status.RetryableFailure?
                  then Some((d.taskId, MaxReal(o.retryAfter, Pow2(|d.attempts| - 1)))) else None)
  }

  lemma SettleStored(
    h: Hashes, m: Manifest, good: Checkpoint -> bool, s: Machine, c: Checkpoint, reply: Reply, at: real)
    requires Closed(h, m, good) && Inv(m, good, s) && s.phase == Awaiting(c.taskId)
    requires c.taskId in s.tasks && s.tasks[c.taskId] == c && at >= s.clock
    ensures var o := SearchOnce(h, reply, m.resultLimit);
      && CompleteAttempt(c, o, StampOf(at), m.maxAttempts).Some?
      && var d := CompleteAttempt(c, o, StampOf(at), m.maxAttempts).value;
         && d.taskId == c.taskId && d.target == c.target
            && Apply(h, m, s, Completed(c.taskId, reply, at)).Some?
         && var t := Apply(h, m, s, Completed(c.taskId, reply, at)).value;
            && Inv(m, good, t) && t.tasks == s.tasks[c.taskId := d] && t.clock == at && t.retry == s.retry
            && SettledAs(m, d, o, t, at) && |d.attempts| == |c.attempts|
  {
    CompletedStep(h, m, good, s, c.taskId, reply, at);
  }

  class Worker {
    const h: Hashes
    const store: BatchStore
    var clock: real
    ghost var view: View
    ghost var trace: Trace // the batch when it was created, and everything that happened to it since

    /** The store and clock are what the history says. */
    ghost predicate Linked(m: Manifest)
      reads this, store
    {
      && store.h == h && store.manifest == Some(m)
      && Genuine(h, m, view) && view.stored(store.shards, trace.machine.tasks) && view.reached(trace)
      && trace.machine.clock <= clock
    }

    constructor (store: BatchStore, clock: real)
      requires store.manifest.None?
      ensures this.store == store && this.h == store.h && this.clock == clock && Free()
    {
      this.h, this.store, this.clock := store.h, store, clock;
    }

    /** No run holds the locks: there is no batch yet, or one whose history is known. */
    ghost predicate Free()
      reads this, store
    {
      && store.h == h
      && (store.manifest.Some? ==> Linked(store.manifest.value) && trace.machine.phase.Idle?)
    }

    /** The clock never runs backwards. */
    method Now() returns (t: real)
      modifies this`clock
      ensures t == clock >= old(clock)
    {
      var jump: real := *;
      clock := clock + if jump > 0.0 then jump else 0.0;
      t := clock;
    }

    /** A mortal run may die at any point between its steps. */
    method Dies(mortal: bool) returns (dead: bool)
      ensures dead ==> mortal
    {
      var struck: bool := *;
      dead := mortal && struck;
    }

    /** The sleeper sleeps at least as long as it is asked to. */
    method Sleep(seconds: real)
      modifies this`clock
      ensures clock >= old(clock) && clock >= old(clock) + seconds
    {
      var jump: real := *;
      clock := clock + (if jump > 0.0 then jump else 0.0) + (if seconds > 0.0 then seconds else 0.0);
    }

    /** A checkpoint that keeps the batch valid is never refused, and changes one task. */
    method Persist(m: Manifest, c: Checkpoint, ghost before: TaskTable)
      requires store.h == h && store.manifest == Some(m) && m.schema == CURRENT_SCHEMA && ValidManifest(m)
      requires Genuine(h, m, view) && view.stored(store.shards, before)
      requires c.taskId in before && before[c.taskId].target == c.target
      requires TableValid(m, before[c.taskId := c], view.good)
      modifies store`shards
      ensures view.stored(store.shards, before[c.taskId := c])
    {
      ViewedTable(h, m, view, before[c.taskId := c]);
      OpenStore(h, m, view, store.shards, before);
      Replace(store, m, c, before);
      CloseStore(h, m, view, store.shards, before[c.taskId := c]);
    }

    /** The store moves with the history. */
    method Commit(m: Manifest, d: Checkpoint, ghost e: Event, ghost next: Machine)
      requires Linked(m) && d.taskId in trace.machine.tasks && trace.machine.tasks[d.taskId].target == d.target
      requires m.requestsPerMinute >= 1 && Apply(h, m, trace.machine, e) == Some(next) && Inv(m, view.good, next)
      requires next.tasks == trace.machine.tasks[d.taskId := d] && next.clock <= clock
      modifies this`trace, store`shards
      ensures Linked(m) && trace == Trace(old(trace).origin, old(trace).events + [e], next)
    {
      OpenTable(m, view.good, next.tasks);
      Persist(m, d, trace.machine.tasks);
      Advance(h, m, view, trace, e, next);
      trace := Trace(trace.origin, trace.events + [e], next);
    }

    /** An event that leaves the store alone. */
    ghost method Note(m: Manifest, e: Event, next: Machine)
      requires Linked(m) && next.tasks == trace.machine.tasks && next.clock <= clock
      requires m.requestsPerMinute >= 1 && Apply(h, m, trace.machine, e) == Some(next) && Inv(m, view.good, next)
      modifies this`trace
      ensures Linked(m) && trace == Trace(old(trace).origin, old(trace).events + [e], next)
    {
      Advance(h, m, view, trace, e, next);
      trace := Trace(trace.origin, trace.events + [e], next);
    }

    /** Persist the in-flight marker. */
    method Mark(m: Manifest, c: Checkpoint, started: real) returns (d: Checkpoint)
      requires Linked(m) && trace.machine.phase.Ready? && Holding(trace, c)
      requires m.requestsPerMinute >= 1 && Eligible(c, trace.machine.retry)
      requires started == clock && Rested(m, trace.machine, c.taskId, started)
      modifies this`trace, store`shards
      ensures Linked(m) && Later(old(trace), trace) && OnlyChanged(old(trace), trace, d) && d.taskId == c.taskId
      ensures trace.machine.phase == Armed(c.taskId) && |d.attempts| == |c.attempts| + 1
    {
      Current(h, m, view, trace);
      ArmStored(h, m, view.good, trace.machine, c, started);
      d := BeginAttempt(c, StampOf(started), m.maxAttempts).value;
      Commit(m, d, Marked(c.taskId, started),
             trace.machine.(tasks := trace.machine.tasks[c.taskId := d], clock := started, phase := Armed(c.taskId)));
    }

    /** The paid call begins. */
    ghost method Call(m: Manifest, c: Checkpoint)
      requires Linked(m) && trace.machine.phase == Armed(c.taskId) && Holding(trace, c)
      modifies this`trace
      ensures Linked(m) && Later(old(trace), trace) && Holding(trace, c)
      ensures trace.machine.phase == Awaiting(c.taskId) && trace.machine.tasks == old(trace).machine.tasks
    {
      Current(h, m, view, trace);
      CallStored(h, m, view.good, trace.machine, c.taskId, clock);
      Note(m, Called(c.taskId, clock), trace.machine.(clock := clock, phase := Awaiting(c.taskId)));
    }

    /** Record what came back. */
    method Settle(m: Manifest, c: Checkpoint, reply: Reply, completedAt: real) returns (d: Checkpoint)
      requires Linked(m) && trace.machine.phase == Awaiting(c.taskId) && Holding(trace, c) && completedAt == clock
      modifies this`trace, store`shards
      ensures Linked(m) && Later(old(trace), trace) && OnlyChanged(old(trace), trace, d) && d.taskId == c.taskId
      ensures SettledAs(m, d, SearchOnce(h, reply, m.resultLimit), trace.machine, completedAt)
      ensures |d.attempts| == |c.attempts|
      ensures StopsAfter(SearchOnce(h, reply, m.resultLimit)) ==> JustStopped(h, m, trace.events)
    {
      Current(h, m, view, trace);
      SettleStored(h, m, view.good, trace.machine, c, reply, completedAt);
      d := CompleteAttempt(c, SearchOnce(h, reply, m.resultLimit), StampOf(completedAt), m.maxAttempts).value;
      Commit(m, d, Completed(c.taskId, reply, completedAt),
             Apply(h, m, trace.machine, Completed(c.taskId, reply, completedAt)).value);
    }

    /** An attempt a crash left in flight becomes a lost one. */
    method Recover(m: Manifest, c: Checkpoint, at: real) returns (d: Checkpoint)
      requires Linked(m) && trace.machine.phase.Ready? && trace.machine.hold.None? && trace.machine.retry
      requires Holding(trace, c) && c.status.Flying? && at == clock
      modifies this`trace, store`shards
      ensures Linked(m) && Later(old(trace), trace) && OnlyChanged(old(trace), trace, d) && d.taskId == c.taskId
      ensures trace.machine.phase.Ready? && trace.machine.hold.None?
      ensures trace.machine.last ==
        Some(if old(trace).machine.last.None? then at else MaxReal(old(trace).machine.last.value, at))
      ensures ResponseLost(d) && (d.status.RetryableFailure? || d.status.AttemptsExhausted?)
    {
      Current(h, m, view, trace);
      RecoverStored(h, m, view.good, trace.machine, c, at);
      d := RecoverInFlight(c, StampOf(at), m.maxAttempts).value;
      Commit(m, d, Recovered(c.taskId, at), Apply(h, m, trace.machine, Recovered(c.taskId, at)).value);
    }

    /** A run begins: it knows the latest completion stored anywhere. */
    ghost method Begin(m: Manifest, retry: bool, since: Option<int>)
      requires Linked(m) && trace.machine.phase.Idle? && CoversCompletions(trace.machine.tasks, since)
      modifies this`trace
      ensures Linked(m) && trace.origin == old(trace).origin
      ensures trace.events == old(trace).events + [Start(retry, since)]
      ensures trace.machine.phase.Ready? && trace.machine.hold.None? && trace.machine.retry == retry
      ensures trace.machine.tasks == old(trace).machine.tasks
      ensures trace.machine.last == if since.None? then None else Some(since.value as real)
    {
      Current(h, m, view, trace);
      Note(m, Start(retry, since), Apply(h, m, trace.machine, Start(retry, since)).value);
    }

    /** A run ends, however it ends. */
    ghost method End(m: Manifest)
      requires Linked(m) && !trace.machine.phase.Idle?
      modifies this`trace
      ensures Linked(m) && Later(old(trace), trace) && trace.machine.phase.Idle?
      ensures trace.events == old(trace).events + [Ended]
      ensures trace.machine.tasks == old(trace).machine.tasks
    {
      Current(h, m, view, trace);
      Note(m, Ended, trace.machine.(phase := Idle, hold := None));
    }

    /** Waits out the rate interval and the back-off. */
    method Pace(m: Manifest, last: Option<real>, retryDelay: real, ghost c: Checkpoint) returns (started: real)
      requires Linked(m) && trace.machine.phase.Ready? && trace.machine.last == last
      requires Delayed(trace.machine, c.taskId, retryDelay) && m.requestsPerMinute >= 1
      modifies this`clock
      ensures Linked(m) && started == clock && Rested(m, trace.machine, c.taskId, started)
    {
      Current(h, m, view, trace);
      var interval := Interval(m);
      var current := Now();
      var elapsed := if last.Some? then current - last.value else interval;
      var delayBefore := MaxReal(MaxReal(0.0, interval - elapsed), retryDelay);
      if delayBefore != 0.0 { Sleep(delayBefore); }
      started := Now();
    }

    /** Wait, store the marker, and begin the paid call. */
    method StartCall(m: Manifest, c: Checkpoint, last: Option<real>, retryDelay: real) returns (d: Checkpoint)
      requires Linked(m) && trace.machine.phase.Ready? && trace.machine.last == last
      requires Delayed(trace.machine, c.taskId, retryDelay) && m.requestsPerMinute >= 1
      requires Holding(trace, c) && Eligible(c, trace.machine.retry)
      modifies this`clock, this`trace, store`shards
      ensures Linked(m) && Later(old(trace), trace) && OnlyChanged(old(trace), trace, d) && d.taskId == c.taskId
      ensures trace.machine.phase == Awaiting(c.taskId) && |d.attempts| == |c.attempts| + 1
    {
      var started := Pace(m, last, retryDelay, c);
      d := Mark(m, c, started);
      Call(m, d);
    }

    /** One paid attempt: marker, call, outcome. A call that never returns, or raises, leaves the
        marker behind like any other crash. */
    method Attempt(m: Manifest, c: Checkpoint, last: Option<real>, retryDelay: real, mortal: bool)
      returns (d: Checkpoint, crashed: bool, completedAt: real, outcome: SearchOutcome)
      requires Linked(m) && trace.machine.phase.Ready? && trace.machine.last == last
      requires Delayed(trace.machine, c.taskId, retryDelay) && m.requestsPerMinute >= 1
      requires Holding(trace, c) && Eligible(c, trace.machine.retry)
      modifies this`clock, this`trace, store`shards
      ensures Linked(m) && Later(old(trace), trace) && OnlyChanged(old(trace), trace, d) && d.taskId == c.taskId
      ensures !trace.machine.phase.Idle? && (crashed ==> mortal)
      ensures !crashed ==>
        SettledAs(m, d, outcome, trace.machine, completedAt) && |d.attempts| == |c.attempts| + 1
      ensures !crashed && StopsAfter(outcome) ==> JustStopped(h, m, trace.events)
    {
      d := StartCall(m, c, last, retryDelay);
      ghost var begun, calling := d, trace;
      completedAt, outcome := clock, SearchOnce(h, Reply.Lost, m.resultLimit);
      crashed := Dies(mortal);
      if crashed { return; }
      var reply: Reply := *;
      completedAt := Now();
      outcome := SearchOnce(h, reply, m.resultLimit);
      d := Settle(m, d, reply, completedAt);
      ChangedTwice(old(trace), calling, trace, begun, d);
      crashed := Dies(mortal);
    }

    /** The inner loop: attempts at one task until it is settled. */
    method Attempts(m: Manifest, task: Checkpoint, since: Option<real>, mortal: bool)
      returns (result: RunResult, last: Option<real>)
      requires Linked(m) && trace.machine.phase.Ready? && trace.machine.hold.None? && trace.machine.last == since
      requires Holding(trace, task) && Eligible(task, trace.machine.retry) && m.requestsPerMinute >= 1
      modifies this`clock, this`trace, store`shards
      ensures Linked(m) && Later(old(trace), trace) && OthersKept(old(trace), trace, task.taskId)
      ensures !trace.machine.phase.Idle? && result != Refused && (result.Crashed? ==> mortal)
      ensures result.Finished? ==>
        && trace.machine.phase.Ready? && trace.machine.hold.None? && trace.machine.last == last
        && Terminal(trace.machine.tasks[task.taskId].status)
      ensures result.Raised? ==> trace.machine.phase.Halted? && JustStopped(h, m, trace.events)
    {
      var c := task;
      var retryDelay := 0.0;
      last := since;
      WithinBudget(h, m, view, trace, c);
      while |c.attempts| < m.maxAttempts
        invariant Linked(m) && trace.machine.phase.Ready? && trace.machine.last == last
        invariant Delayed(trace.machine, c.taskId, retryDelay)
        invariant Later(old(trace), trace) && OthersKept(old(trace), trace, task.taskId)
        invariant c.taskId == task.taskId && Holding(trace, c)
        invariant Eligible(c, trace.machine.retry) && |c.attempts| < m.maxAttempts
        decreases m.maxAttempts - |c.attempts|
      {
        var crashed, completedAt, outcome;
        c, crashed, completedAt, outcome := Attempt(m, c, last, retryDelay, mortal);
        if crashed { return Crashed, last; }
        last := Some(completedAt);
        if StopsAfter(outcome) { return Raised, last; }
        WithinBudget(h, m, view, trace, c);
        if !c.status.RetryableFailure? { return Finished, last; }
        retryDelay := MaxReal(outcome.retryAfter, Pow2(|c.attempts| - 1));
      }
      assert false;
    }

    /** One task of the run: an interrupted attempt needs the flag, a terminal task is skipped. */
    method ExecuteTask(m: Manifest, original: Checkpoint, retry: bool, since: Option<real>, mortal: bool)
      returns (result: RunResult, last: Option<real>)
      requires Linked(m) && trace.machine.phase.Ready? && trace.machine.hold.None? && trace.machine.last == since
      requires Holding(trace, original) && trace.machine.retry == retry && m.requestsPerMinute >= 1
      modifies this`clock, this`trace, store`shards
      ensures Linked(m) && Later(old(trace), trace) && OthersKept(old(trace), trace, original.taskId)
      ensures !trace.machine.phase.Idle? && result != Refused && (result.Crashed? ==> mortal)
      ensures result.Finished? ==>
        && trace.machine.phase.Ready? && trace.machine.hold.None? && trace.machine.last == last
        && Terminal(trace.machine.tasks[original.taskId].status)
      ensures result.Raised? ==> JustStopped(h, m, trace.events) || (!retry && Unresolved(trace.machine.tasks))
    {
      var c := original;
      last := since;
      if c.status.Flying? {
        if !retry { return Raised, last; }
        var recoveredAt := Now();
        c := Recover(m, c, recoveredAt);
        last := Some(if last.None? then recoveredAt else MaxReal(last.value, recoveredAt));
        var crashed := Dies(mortal);
        if crashed { return Crashed, last; }
      }
      if c.status.RetryableFailure? && ResponseLost(c) && !retry { return Raised, last; }
      if Terminal(c.status) { return Finished, last; }
      WithinBudget(h, m, view, trace, c);
      result, last := Attempts(m, c, last, mortal);
    }

    /** `_latest_persisted_completion` over this batch, on top of the latest one in any other batch. */
    method LatestCompletion(cs: seq<Checkpoint>, others: Option<int>) returns (latest: Option<int>)
      ensures latest == LatestOf(cs, others)
    {
      latest := others;
      for i := 0 to |cs|
        invariant latest == LatestOf(cs[..i], others)
      {
        assert cs[..i + 1][..i] == cs[..i];
        var attempts := cs[i].attempts;
        for j := 0 to |attempts|
          invariant latest == LatestIn(attempts[..j], LatestOf(cs[..i], others))
        {
          assert attempts[..j + 1][..j] == attempts[..j];
          if attempts[j].completed.Second? && (latest.None? || latest.value < attempts[j].completed.at) {
            latest := Some(attempts[j].completed.at);
          }
        }
        assert attempts[..|attempts|] == attempts;
      }
      assert cs[..|cs|] == cs;
    }

    /** Every task of the run, in id order. */
    method ExecuteTasks(m: Manifest, retry: bool, tasks: seq<Checkpoint>, since: Option<int>, mortal: bool)
      returns (result: RunResult)
      requires Linked(m) && trace.machine.phase.Ready? && trace.machine.hold.None? && m.requestsPerMinute >= 1
      requires trace.machine.last == if since.None? then None else Some(since.value as real)
      requires trace.machine.retry == retry && Progress(tasks, trace.machine.tasks, 0)
      modifies this`clock, this`trace, store`shards
      ensures Linked(m) && Later(old(trace), trace) && !trace.machine.phase.Idle? && result != Refused
      ensures result.Crashed? ==> mortal
      ensures result.Finished? ==> AllTerminal(trace.machine.tasks)
      ensures result.Raised? ==> JustStopped(h, m, trace.events) || (!retry && Unresolved(trace.machine.tasks))
    {
      var last: Option<real> := if since.None? then None else Some(since.value as real);
      for i := 0 to |tasks|
        invariant Linked(m) && Later(old(trace), trace) && trace.machine.retry == retry
        invariant trace.machine.phase.Ready? && trace.machine.hold.None? && trace.machine.last == last
        invariant Progress(tasks, trace.machine.tasks, i)
      {
        ghost var before := trace;
        result, last := ExecuteTask(m, tasks[i], retry, last, mortal);
        if !result.Finished? { return; }
        ProgressStep(tasks, before, trace, i);
      }
      result := Finished;
    }

    /** A stored batch takes up a history. */
    ghost method Adopt(m: Manifest, v: View, t: Trace)
      requires store.h == h && store.manifest == Some(m) && t.machine.clock <= clock
      requires Genuine(h, m, v) && v.stored(store.shards, t.machine.tasks) && v.reached(t)
      modifies this`view, this`trace
      ensures Linked(m) && trace == t
    {
      view, trace := v, t;
    }

    /** `initialize_batch` under the locks: a new batch gets a history, a stored one keeps its own. */
    method Prepare(m: Manifest, cs: seq<Checkpoint>) returns (ok: bool)
      requires Free() && (store.manifest.None? ==> NoneAfter(cs, clock.Floor))
      modifies this`view, this`trace, store
      ensures ok <==> Accepted(h, m, cs, old(store.manifest))
      ensures !ok ==> store.manifest == old(store.manifest) && store.shards == old(store.shards)
      ensures !ok ==> Free()
      ensures ok ==> Linked(m) && trace.machine.phase.Idle?
      ensures !ok || old(store.manifest).Some? ==> trace == old(trace)
      ensures ok && old(store.manifest).None? ==> OriginOf(trace, cs) && trace.events == []
    {
      ghost var before := store.manifest;
      if before.Some? { StoredIsSound(h, before.value, view, store.shards, trace); }
      ok := Initialize(store, m, cs);
      if ok && before.None? {
        ghost var v, t := FreshHistory(h, m, store.shards, cs, clock);
        Adopt(m, v, t);
      }
    }

    /** `execute_batch`, with `others` the latest completion in any other stored batch, or None when one
        of them does not validate. Refused exactly when the batch is not the one stored or not valid;
        otherwise the history goes on, and a run that finishes leaves every task terminal; one that is not
        mortal ends only by finishing or raising. */
    method ExecuteBatch(m: Manifest, cs: seq<Checkpoint>, retry: bool, others: Option<Option<int>>, mortal: bool)
      returns (result: RunResult)
      requires Free() && (store.manifest.None? ==> NoneAfter(cs, clock.Floor))
      modifies this, store
      ensures Free()
      ensures result.Refused? <==> !Accepted(h, m, cs, old(store.manifest))
      ensures result.Refused? ==>
        store.manifest == old(store.manifest) && store.shards == old(store.shards) && trace == old(trace)
      ensures !result.Refused? ==> store.manifest == Some(m) && Linked(m)
      ensures !result.Refused? && old(store.manifest).Some? ==>
        trace.origin == old(trace).origin && old(trace).events <= trace.events
      ensures !result.Refused? && old(store.manifest).None? ==> OriginOf(trace, cs)
      ensures result.Crashed? ==> mortal
      ensures result.Finished? ==> AllTerminal(trace.machine.tasks)
      ensures result.Raised? && others.Some? ==>
        WasStopped(h, m, trace.events) || (!retry && Unresolved(trace.machine.tasks))
    {
      var ok := Prepare(m, cs);
      if !ok { return Refused; }
      if others.None? { return Raised; }
      result := Run(m, retry, others.value, mortal);
      if result.Finished? { CheckStored(m); }
    }

    /** One run over the stored tasks. */
    method Run(m: Manifest, retry: bool, others: Option<int>, mortal: bool) returns (result: RunResult)
      requires Linked(m) && trace.machine.phase.Idle?
      modifies this`clock, this`trace, store`shards
      ensures Linked(m) && trace.machine.phase.Idle? && result != Refused && (result.Crashed? ==> mortal)
      ensures trace.origin == old(trace).origin && old(trace).events <= trace.events
      ensures result.Finished? ==> AllTerminal(trace.machine.tasks)
      ensures result.Raised? ==> WasStopped(h, m, trace.events) || (!retry && Unresolved(trace.machine.tasks))
    {
      var tasks, since := Open(m, retry, others);
      result := ExecuteTasks(m, retry, tasks, since, mortal);
      ghost var during := trace;
      End(m);
      assert trace.events[..|trace.events| - 1] == during.events;
    }

    /** The stored tasks and the latest completion anywhere, at the start of a run. */
    method Open(m: Manifest, retry: bool, others: Option<int>) returns (tasks: seq<Checkpoint>, since: Option<int>)
      requires Linked(m) && trace.machine.phase.Idle?
      modifies this`trace
      ensures Linked(m) && trace.origin == old(trace).origin
      ensures trace.events == old(trace).events + [Start(retry, since)]
      ensures trace.machine.phase.Ready? && trace.machine.hold.None? && trace.machine.retry == retry
      ensures trace.machine.last == if since.None? then None else Some(since.value as real)
      ensures Progress(tasks, trace.machine.tasks, 0) && m.requestsPerMinute >= 1
      ensures since == LatestOf(tasks, others)
    {
      Bounds(h, m, view, trace);
      tasks := LoadTasks(m);
      since := LatestCompletion(tasks, others);
      LatestCovers(tasks, trace.machine.tasks, others);
      Begin(m, retry, since);
    }

    /** The stored checkpoints, by id. */
    method LoadTasks(m: Manifest) returns (tasks: seq<Checkpoint>)
      requires Linked(m)
      ensures Lists(tasks, trace.machine.tasks, IdOf) && Progress(tasks, trace.machine.tasks, 0)
    {
      OpenStore(h, m, view, store.shards, trace.machine.tasks);
      var loaded := store.LoadCheckpoints();
      tasks := loaded.value;
      Listed(tasks, trace.machine.tasks);
    }

    /** The final validation always passes. */
    method CheckStored(m: Manifest)
      requires Linked(m)
    {
      StoredIsSound(h, m, view, store.shards, trace);
      var valid := store.StoredBatchValid(m);
      assert valid;
    }
  }

  // ---------------------------------------------------------------- what the loop guarantees

  lemma HistoryPossible(h: Hashes, m: Manifest, v: View, t: Trace)
    requires Genuine(h, m, v) && v.reached(t)
    ensures AtRest(h, m, t.origin) && Possible(h, m, t.origin, t.events)
  {
    Unseal(h, m, v, t);
    JudgedInv(h, m, v, t.origin);
  }

  lemma JudgedInv(h: Hashes, m: Manifest, v: View, s: Machine)
    requires Genuine(h, m, v) && Inv(m, v.good, s)
    ensures Inv(m, Member(h, m), s)
  {
    OpenTable(m, v.good, s.tasks);
    ViewedTable(h, m, v, s.tasks);
  }

  /** Main result: however often a worker ran a batch, with whatever flags, replies and crashes, each
      task was paid for at most `max_attempts` times. */
  lemma WorkerPaysWithinBudget(w: Worker, m: Manifest, id: Digest)
    requires w.Linked(m) && id in w.trace.origin.tasks
    ensures Calls(w.trace.events, id) <= m.maxAttempts
    ensures AtRest(w.h, m, w.trace.origin) && Possible(w.h, m, w.trace.origin, w.trace.events)
  {
    HistoryPossible(w.h, m, w.view, w.trace);
    CallBudget(w.h, m, w.trace.origin, w.trace.events, id);
  }
}
