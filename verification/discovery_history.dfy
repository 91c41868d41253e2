/**
 Histories of one stored batch: every durable write, paid call and run boundary, in order,
 over any number of runs, any retry flags and a crash at any point.

 `Apply` says which event can happen next and what it does. A crash is `Ended` at an arbitrary
 moment; only the tasks on disk and the clock survive it, and the two advisory locks let the
 next `Start` happen only after it.
 */
module DiscoveryHistory {
  import opened Options
  import opened DiscoveryModels
  import opened DiscoveryStore
  import opened DiscoverySteps

  type TaskTable = map<Digest, Checkpoint>

  datatype Event =
    | Start(retry: bool, since: Option<int>) // `since`: latest completion stored in any batch
    | Recovered(id: Digest, at: real)
    | Marked(id: Digest, at: real)
    | Called(id: Digest, at: real)
    | Completed(id: Digest, reply: Reply, at: real)
    | Ended

  datatype Phase = Idle | Ready | Armed(id: Digest) | Awaiting(id: Digest) | Halted

  /** `hold`: the task being retried and the back-off its next call must also respect. */
  datatype Machine = Machine(
    tasks: TaskTable,
    clock: real,
    phase: Phase,
    retry: bool,
    last: Option<real>,
    hold: Option<(Digest, real)>)

  function Interval(m: Manifest): real
    requires m.requestsPerMinute >= 1
  {
    60.0 / (m.requestsPerMinute as real)
  }

  function Pow2(n: nat): real { if n == 0 then 1.0 else 2.0 * Pow2(n - 1) }

  function MaxReal(a: real, b: real): real { if a < b then b else a }

  function LastAttempt(c: Checkpoint): Attempt
    requires |c.attempts| > 0
  {
    c.attempts[|c.attempts| - 1]
  }

  /** The latest stored attempt lost its response. */
  predicate ResponseLost(c: Checkpoint) { |c.attempts| > 0 && LastAttempt(c).outcome.Indeterminate? }

  ghost predicate CoversCompletions(tasks: TaskTable, since: Option<int>) {
    forall id, i | id in tasks && 0 <= i < |tasks[id].attempts| ::
      tasks[id].attempts[i].completed.Second? ==>
        since.Some? && tasks[id].attempts[i].completed.at <= since.value
  }

  predicate Rested(m: Manifest, s: Machine, id: Digest, at: real)
    requires m.requestsPerMinute >= 1
  {
    && (s.last.Some? ==> at >= s.last.value + Interval(m))
    && (s.hold.Some? ==> s.last.Some? && s.hold.value.0 == id && at >= s.last.value + s.hold.value.1)
  }

  predicate Eligible(c: Checkpoint, retry: bool) {
    (c.status.Pending? || c.status.RetryableFailure?) && (ResponseLost(c) ==> retry)
  }

  /** Persisting the in-flight marker. */
  ghost function Arm(m: Manifest, s: Machine, id: Digest, at: real): Option<Machine>
    requires id in s.tasks
  {
    match BeginAttempt(s.tasks[id], StampOf(at), m.maxAttempts)
    case None => None
    case Some(c) => Some(s.(tasks := s.tasks[id := c], clock := at, phase := Armed(id)))
  }

  /** Recording outcome `o` for the awaited call; an indeterminate or systemic one stops the run. */
  ghost function Settle(m: Manifest, s: Machine, id: Digest, o: SearchOutcome, at: real): Option<Machine>
    requires id in s.tasks
  {
    match CompleteAttempt(s.tasks[id], o, StampOf(at), m.maxAttempts)
    case None => None
    case Some(c) =>
      Some(s.(tasks := s.tasks[id := c], clock := at, last := Some(at),
              phase := if o.outcome.Indeterminate? || o.systemic then Halted else Ready,
              hold := if c.status.RetryableFailure? && |c.attempts| > 0
                      then Some((id, MaxReal(o.retryAfter, Pow2(|c.attempts| - 1)))) else None))
  }

  ghost function Apply(h: Hashes, m: Manifest, s: Machine, e: Event): Option<Machine>
    requires m.requestsPerMinute >= 1
  {
    match e
    case Start(retry, since) =>
      if s.phase.Idle? && CoversCompletions(s.tasks, since) then
        Some(s.(phase := Ready, retry := retry, hold := None,
                last := if since.None? then None else Some(since.value as real)))
      else None
    case Recovered(id, at) =>
      if s.phase.Ready? && s.hold.None? && s.retry && id in s.tasks && at >= s.clock then
        match RecoverInFlight(s.tasks[id], StampOf(at), m.maxAttempts)
        case None => None
        case Some(c) =>
          Some(s.(tasks := s.tasks[id := c], clock := at,
                  last := Some(if s.last.None? then at else MaxReal(s.last.value, at))))
      else None
    case Marked(id, at) =>
      if s.phase.Ready? && id in s.tasks && at >= s.clock && Eligible(s.tasks[id], s.retry)
         && Rested(m, s, id, at) then
        Arm(m, s, id, at)
      else None
    case Called(id, at) =>
      if s.phase == Armed(id) && at >= s.clock then Some(s.(clock := at, phase := Awaiting(id))) else None
    case Completed(id, reply, at) =>
      if s.phase == Awaiting(id) && id in s.tasks && at >= s.clock then
        Settle(m, s, id, SearchOnce(h, reply, m.resultLimit), at)
      else None
    case Ended =>
      if s.phase.Idle? then None else Some(s.(phase := Idle, hold := None))
  }

  /** The machine after a history, if the history can happen. */
  ghost function Replay(h: Hashes, m: Manifest, s: Machine, events: seq<Event>): Option<Machine>
    requires m.requestsPerMinute >= 1
    decreases |events|
  {
    if events == [] then Some(s)
    else
      match Replay(h, m, s, events[..|events| - 1])
      case None => None
      case Some(t) => Apply(h, m, t, events[|events| - 1])
  }

  ghost predicate Possible(h: Hashes, m: Manifest, s: Machine, events: seq<Event>)
    requires m.requestsPerMinute >= 1
  {
    Replay(h, m, s, events).Some?
  }

  // ---------------------------------------------------------------- the invariant

  ghost predicate Timely(tasks: TaskTable, clock: real) {
    forall id :: id in tasks ==> NotAfter(tasks[id], clock.Floor)
  }

  /** What holds of a machine between events, besides the validity of its tasks. */
  ghost predicate Coherent(m: Manifest, s: Machine)
    requires m.requestsPerMinute >= 1
  {
    match s.phase
    case Idle => true
    case Halted => true
    case Ready =>
      s.hold.Some? ==> s.last.Some? && s.last.value <= s.clock && s.hold.value.0 in s.tasks
    case Armed(id) =>
      && id in s.tasks && s.tasks[id].status.Flying? && Consented(s, id)
      && (s.last.Some? ==> s.clock >= s.last.value + Interval(m))
    case Awaiting(id) => id in s.tasks && s.tasks[id].status.Flying?
  }

  /** The attempt before the marker was not a lost response, unless this run was told to retry. */
  ghost predicate Consented(s: Machine, id: Digest)
    requires id in s.tasks
  {
    var a := s.tasks[id].attempts;
    |a| >= 2 && a[|a| - 2].outcome.Indeterminate? ==> s.retry
  }

  ghost predicate Sighted(tasks: TaskTable) { true }

  /** The tasks are valid as a table; the trigger keeps that closed until `OpenTable`. */
  ghost predicate Kept(m: Manifest, good: Checkpoint -> bool, tasks: TaskTable) {
    forall t: TaskTable {:trigger Sighted(t)} :: Sighted(t) ==> TableValid(m, tasks, good)
  }

  lemma OpenTable(m: Manifest, good: Checkpoint -> bool, tasks: TaskTable)
    requires Kept(m, good, tasks)
    ensures TableValid(m, tasks, good)
  {
    assert Sighted(tasks);
  }

  lemma TaskHeld(m: Manifest, good: Checkpoint -> bool, tasks: TaskTable, id: Digest)
    requires Kept(m, good, tasks) && id in tasks
    ensures tasks[id].taskId == id && good(tasks[id])
  {
    OpenTable(m, good, tasks);
  }

  /** A stored batch between events: members judged good, nothing from the future. */
  ghost predicate Inv(m: Manifest, good: Checkpoint -> bool, s: Machine) {
    && m.schema == CURRENT_SCHEMA && ValidManifest(m)
    && Kept(m, good, s.tasks)
    && Timely(s.tasks, s.clock)
    && Coherent(m, s)
  }

  // ---------------------------------------------------------------- judgements the steps keep

  ghost predicate MarkKeeps(m: Manifest, good: Checkpoint -> bool, c: Checkpoint, retry: bool, at: real) {
    && BeginAttempt(c, StampOf(at), m.maxAttempts).Some?
    && var d := BeginAttempt(c, StampOf(at), m.maxAttempts).value;
       && good(d) && NotAfter(d, at.Floor) && Extends(c, d) && d.status.Flying?
       && |d.attempts| == |c.attempts| + 1
       && (|d.attempts| >= 2 && d.attempts[|d.attempts| - 2].outcome.Indeterminate? ==> retry)
  }

  ghost predicate RecoverKeeps(m: Manifest, good: Checkpoint -> bool, c: Checkpoint, at: real) {
    && RecoverInFlight(c, StampOf(at), m.maxAttempts).Some?
    && var d := RecoverInFlight(c, StampOf(at), m.maxAttempts).value;
       && good(d) && NotAfter(d, at.Floor) && Extends(c, d) && ResponseLost(d)
       && |d.attempts| == |c.attempts|
       && (d.status.RetryableFailure? || d.status.AttemptsExhausted?)
  }

  ghost predicate SettleKeeps(
    m: Manifest, good: Checkpoint -> bool, c: Checkpoint, o: SearchOutcome, at: real)
  {
    && CompleteAttempt(c, o, StampOf(at), m.maxAttempts).Some?
    && var d := CompleteAttempt(c, o, StampOf(at), m.maxAttempts).value;
       && good(d) && NotAfter(d, at.Floor) && Extends(c, d)
       && !d.status.Flying? && !d.status.Pending? && |d.attempts| == |c.attempts| > 0
       && LastAttempt(d).completed == StampOf(at) && LastAttempt(d).outcome == o.outcome
  }

  ghost predicate ReplyKeeps(
    h: Hashes, m: Manifest, good: Checkpoint -> bool, c: Checkpoint, reply: Reply, at: real)
  {
    SettleKeeps(m, good, c, SearchOnce(h, reply, m.resultLimit), at)
  }

  ghost predicate Bounded(m: Manifest, c: Checkpoint) {
    && |c.attempts| <= m.maxAttempts && !c.status.UnknownStatus?
    && (c.status.Pending? || c.status.RetryableFailure? ==> |c.attempts| < m.maxAttempts)
    && (c.status.Pending? ==> |c.attempts| == 0)
  }

  /** The judgement `good` bounds the attempts and survives every transition of the loop. */
  ghost predicate Closed(h: Hashes, m: Manifest, good: Checkpoint -> bool) {
    && (forall c {:trigger Bounded(m, c)} :: good(c) ==> Bounded(m, c))
    && (forall c, retry, at: real {:trigger MarkKeeps(m, good, c, retry, at)} ::
          good(c) && NotAfter(c, at.Floor) && Eligible(c, retry) ==> MarkKeeps(m, good, c, retry, at))
    && (forall c, at: real {:trigger RecoverKeeps(m, good, c, at)} ::
          good(c) && NotAfter(c, at.Floor) && c.status.Flying? ==> RecoverKeeps(m, good, c, at))
    && (forall c, reply, at: real {:trigger ReplyKeeps(h, m, good, c, reply, at)} ::
          good(c) && NotAfter(c, at.Floor) && c.status.Flying? ==> ReplyKeeps(h, m, good, c, reply, at))
  }

  lemma MarkKeepsMember(h: Hashes, m: Manifest, c: Checkpoint, retry: bool, at: real)
    requires ValidManifest(m) && ValidMember(h, m, c) && NotAfter(c, at.Floor) && Eligible(c, retry)
    ensures MarkKeeps(m, Member(h, m), c, retry, at)
  {
    BeginKeepsValid(h, m, c, at);
    var d := BeginAttempt(c, StampOf(at), m.maxAttempts).value;
    assert d.attempts[..|c.attempts|] == c.attempts;
  }

  lemma RecoverKeepsMember(h: Hashes, m: Manifest, c: Checkpoint, at: real)
    requires ValidManifest(m) && ValidMember(h, m, c) && NotAfter(c, at.Floor) && c.status.Flying?
    ensures RecoverKeeps(m, Member(h, m), c, at)
  {
    RecoverKeepsValid(h, m, c, at);
  }

  lemma SettleKeepsMember(h: Hashes, m: Manifest, c: Checkpoint, o: SearchOutcome, at: real)
    requires CompleteAttempt(c, o, StampOf(at), m.maxAttempts).Some?
    requires GoodCompletion(h, m, c, CompleteAttempt(c, o, StampOf(at), m.maxAttempts).value, o, at)
    ensures SettleKeeps(m, Member(h, m), c, o, at)
  {
  }

  lemma ReplyKeepsMember(h: Hashes, m: Manifest, c: Checkpoint, reply: Reply, at: real)
    requires ValidManifest(m) && ValidMember(h, m, c) && NotAfter(c, at.Floor) && c.status.Flying?
    ensures ReplyKeeps(h, m, Member(h, m), c, reply, at)
  {
    CompleteKeepsValid(h, m, c, reply, at);
    SettleKeepsMember(h, m, c, SearchOnce(h, reply, m.resultLimit), at);
  }

  /** `validate_batch`'s judgement of a checkpoint survives every transition, for every reply. */
  lemma MembersClosed(h: Hashes, m: Manifest)
    requires ValidManifest(m)
    ensures Closed(h, m, Member(h, m))
  {
    var good := Member(h, m);
    forall c: Checkpoint, retry: bool, at: real | good(c) && NotAfter(c, at.Floor) && Eligible(c, retry)
      ensures MarkKeeps(m, good, c, retry, at)
    {
      MarkKeepsMember(h, m, c, retry, at);
    }
    forall c: Checkpoint, at: real | good(c) && NotAfter(c, at.Floor) && c.status.Flying?
      ensures RecoverKeeps(m, good, c, at)
    {
      RecoverKeepsMember(h, m, c, at);
    }
    forall c: Checkpoint, reply: Reply, at: real | good(c) && NotAfter(c, at.Floor) && c.status.Flying?
      ensures ReplyKeeps(h, m, good, c, reply, at)
    {
      ReplyKeepsMember(h, m, c, reply, at);
    }
  }

  // ---------------------------------------------------------------- one event

  ghost predicate TablesExtend(before: TaskTable, after: TaskTable) {
    before.Keys == after.Keys
    && forall id {:trigger Extends(before[id], after[id])} :: id in before ==> Extends(before[id], after[id])
  }

  lemma TablesExtendReflexive(tasks: TaskTable)
    ensures TablesExtend(tasks, tasks)
  {
  }

  lemma TablesExtendTransitive(a: TaskTable, b: TaskTable, c: TaskTable)
    requires TablesExtend(a, b) && TablesExtend(b, c)
    ensures TablesExtend(a, c)
  {
    forall id | id in a ensures Extends(a[id], c[id]) { ExtendsTransitive(a[id], b[id], c[id]); }
  }

  lemma LaterIsTimely(tasks: TaskTable, before: real, now: real)
    requires Timely(tasks, before) && before <= now
    ensures Timely(tasks, now)
  {
    assert before.Floor <= now.Floor;
  }

  lemma TableWithMember(m: Manifest, tasks: TaskTable, c: Checkpoint, good: Checkpoint -> bool)
    requires TableValid(m, tasks, good) && c.taskId in tasks && good(c)
    requires c.target == tasks[c.taskId].target
    ensures TableValid(m, tasks[c.taskId := c], good)
  {
    var next := tasks[c.taskId := c];
    assert next.Keys == tasks.Keys;
    assert forall id :: id in tasks ==> next[id].target == tasks[id].target;
    assert TableNamespaces(next) == TableNamespaces(tasks) by {
      assert forall id :: id in tasks ==> next[id].target.namespace == tasks[id].target.namespace;
    }
    assert TableStates(next) == TableStates(tasks) by {
      assert forall id :: id in tasks ==> next[id].target.state == tasks[id].target.state;
    }
  }

  /** One checkpoint replaced by a good, timely extension of itself, the clock not running backwards. */
  lemma TaskStep(m: Manifest, good: Checkpoint -> bool, tasks: TaskTable, d: Checkpoint, before: real, now: real)
    requires Kept(m, good, tasks) && d.taskId in tasks && before <= now
    requires Timely(tasks, before)
    requires good(d) && NotAfter(d, now.Floor) && d.target == tasks[d.taskId].target
    ensures Kept(m, good, tasks[d.taskId := d])
    ensures Timely(tasks[d.taskId := d], now)
  {
    OpenTable(m, good, tasks);
    TableWithMember(m, tasks, d, good);
    LaterIsTimely(tasks, before, now);
  }

  lemma ArmedStep(m: Manifest, good: Checkpoint -> bool, s: Machine, id: Digest, at: real)
    requires Inv(m, good, s) && id in s.tasks && at >= s.clock && Rested(m, s, id, at)
    requires MarkKeeps(m, good, s.tasks[id], s.retry, at)
    ensures Arm(m, s, id, at).Some?
    ensures Inv(m, good, Arm(m, s, id, at).value)
  {
    TaskHeld(m, good, s.tasks, id);
    TaskStep(m, good, s.tasks, BeginAttempt(s.tasks[id], StampOf(at), m.maxAttempts).value, s.clock, at);
  }

  lemma MarkedStep(h: Hashes, m: Manifest, good: Checkpoint -> bool, s: Machine, id: Digest, at: real)
    requires Closed(h, m, good) && Inv(m, good, s) && s.phase.Ready? && id in s.tasks && at >= s.clock
    requires Eligible(s.tasks[id], s.retry) && Rested(m, s, id, at)
    ensures Apply(h, m, s, Marked(id, at)) == Arm(m, s, id, at) && Arm(m, s, id, at).Some?
    ensures Inv(m, good, Arm(m, s, id, at).value)
  {
    LaterIsTimely(s.tasks, s.clock, at);
    TaskHeld(m, good, s.tasks, id);
    assert MarkKeeps(m, good, s.tasks[id], s.retry, at);
    ArmedStep(m, good, s, id, at);
  }

  lemma RecoveredStep(h: Hashes, m: Manifest, good: Checkpoint -> bool, s: Machine, id: Digest, at: real)
    requires Closed(h, m, good) && Inv(m, good, s) && s.phase.Ready? && s.hold.None? && s.retry
    requires id in s.tasks && at >= s.clock && s.tasks[id].status.Flying?
    ensures Apply(h, m, s, Recovered(id, at)).Some?
    ensures Inv(m, good, Apply(h, m, s, Recovered(id, at)).value)
  {
    LaterIsTimely(s.tasks, s.clock, at);
    TaskHeld(m, good, s.tasks, id);
    assert RecoverKeeps(m, good, s.tasks[id], at);
    TaskStep(m, good, s.tasks, RecoverInFlight(s.tasks[id], StampOf(at), m.maxAttempts).value, s.clock, at);
  }

  lemma SettledStep(m: Manifest, good: Checkpoint -> bool, s: Machine, id: Digest, o: SearchOutcome, at: real)
    requires Inv(m, good, s) && s.phase == Awaiting(id) && at >= s.clock
    requires SettleKeeps(m, good, s.tasks[id], o, at)
    ensures Settle(m, s, id, o, at).Some?
    ensures Inv(m, good, Settle(m, s, id, o, at).value)
  {
    TaskHeld(m, good, s.tasks, id);
    TaskStep(m, good, s.tasks, CompleteAttempt(s.tasks[id], o, StampOf(at), m.maxAttempts).value, s.clock, at);
  }

  lemma ReplyKept(h: Hashes, m: Manifest, good: Checkpoint -> bool, c: Checkpoint, reply: Reply, at: real)
    requires Closed(h, m, good) && good(c) && NotAfter(c, at.Floor) && c.status.Flying?
    ensures SettleKeeps(m, good, c, SearchOnce(h, reply, m.resultLimit), at)
  {
    assert ReplyKeeps(h, m, good, c, reply, at);
  }

  lemma AwaitedReply(h: Hashes, m: Manifest, good: Checkpoint -> bool, s: Machine, id: Digest, reply: Reply, at: real)
    requires Closed(h, m, good) && Inv(m, good, s) && s.phase == Awaiting(id) && at >= s.clock
    ensures SettleKeeps(m, good, s.tasks[id], SearchOnce(h, reply, m.resultLimit), at)
  {
    LaterIsTimely(s.tasks, s.clock, at);
    TaskHeld(m, good, s.tasks, id);
    ReplyKept(h, m, good, s.tasks[id], reply, at);
  }

  lemma CompletedStep(h: Hashes, m: Manifest, good: Checkpoint -> bool, s: Machine, id: Digest, reply: Reply, at: real)
    requires Closed(h, m, good) && Inv(m, good, s) && s.phase == Awaiting(id) && at >= s.clock
    ensures var o := SearchOnce(h, reply, m.resultLimit);
      && Apply(h, m, s, Completed(id, reply, at)) == Settle(m, s, id, o, at)
      && SettleKeeps(m, good, s.tasks[id], o, at)
      && Inv(m, good, Settle(m, s, id, o, at).value)
  {
    AwaitedReply(h, m, good, s, id, reply, at);
    SettledStep(m, good, s, id, SearchOnce(h, reply, m.resultLimit), at);
  }

  lemma CalledStep(h: Hashes, m: Manifest, good: Checkpoint -> bool, s: Machine, id: Digest, at: real)
    requires Inv(m, good, s) && s.phase == Armed(id) && at >= s.clock
    ensures Inv(m, good, Apply(h, m, s, Called(id, at)).value)
  {
    LaterIsTimely(s.tasks, s.clock, at);
  }

  lemma RecoverNeedsFlying(c: Checkpoint, at: Stamp, maxAttempts: int)
    ensures RecoverInFlight(c, at, maxAttempts).Some? ==> c.status.Flying?
  {
  }

  /** Every event keeps the judgement of the whole batch. */
  lemma StepKeepsInv(h: Hashes, m: Manifest, good: Checkpoint -> bool, s: Machine, e: Event)
    requires Closed(h, m, good) && Inv(m, good, s) && Apply(h, m, s, e).Some?
    ensures Inv(m, good, Apply(h, m, s, e).value)
  {
    match e
    case Start(retry, since) =>
    case Recovered(id, at) =>
      RecoverNeedsFlying(s.tasks[id], StampOf(at), m.maxAttempts);
      RecoveredStep(h, m, good, s, id, at);
    case Marked(id, at) => MarkedStep(h, m, good, s, id, at);
    case Called(id, at) => CalledStep(h, m, good, s, id, at);
    case Completed(id, reply, at) => CompletedStep(h, m, good, s, id, reply, at);
    case Ended =>
  }

  lemma OneTaskExtends(tasks: TaskTable, d: Checkpoint)
    requires d.taskId in tasks && Extends(tasks[d.taskId], d)
    ensures TablesExtend(tasks, tasks[d.taskId := d])
  {
  }

  lemma MarkExtends(h: Hashes, m: Manifest, good: Checkpoint -> bool, s: Machine, id: Digest, at: real)
    requires Closed(h, m, good) && Inv(m, good, s) && id in s.tasks && at >= s.clock && Eligible(s.tasks[id], s.retry)
    requires Arm(m, s, id, at).Some?
    ensures TablesExtend(s.tasks, Arm(m, s, id, at).value.tasks)
  {
    LaterIsTimely(s.tasks, s.clock, at);
    TaskHeld(m, good, s.tasks, id);
    assert MarkKeeps(m, good, s.tasks[id], s.retry, at);
    OneTaskExtends(s.tasks, BeginAttempt(s.tasks[id], StampOf(at), m.maxAttempts).value);
  }

  lemma RecoverExtends(h: Hashes, m: Manifest, good: Checkpoint -> bool, s: Machine, id: Digest, at: real)
    requires Closed(h, m, good) && Inv(m, good, s) && Apply(h, m, s, Recovered(id, at)).Some?
    ensures TablesExtend(s.tasks, Apply(h, m, s, Recovered(id, at)).value.tasks)
  {
    RecoverNeedsFlying(s.tasks[id], StampOf(at), m.maxAttempts);
    LaterIsTimely(s.tasks, s.clock, at);
    TaskHeld(m, good, s.tasks, id);
    assert RecoverKeeps(m, good, s.tasks[id], at);
    OneTaskExtends(s.tasks, RecoverInFlight(s.tasks[id], StampOf(at), m.maxAttempts).value);
  }

  lemma SettleExtends(m: Manifest, good: Checkpoint -> bool, s: Machine, id: Digest, o: SearchOutcome, at: real)
    requires Kept(m, good, s.tasks) && id in s.tasks && SettleKeeps(m, good, s.tasks[id], o, at)
    requires Settle(m, s, id, o, at).Some?
    ensures TablesExtend(s.tasks, Settle(m, s, id, o, at).value.tasks)
  {
    TaskHeld(m, good, s.tasks, id);
    OneTaskExtends(s.tasks, CompleteAttempt(s.tasks[id], o, StampOf(at), m.maxAttempts).value);
  }

  /** Every event only extends what was stored. */
  lemma StepExtends(h: Hashes, m: Manifest, good: Checkpoint -> bool, s: Machine, e: Event)
    requires Closed(h, m, good) && Inv(m, good, s) && Apply(h, m, s, e).Some?
    ensures TablesExtend(s.tasks, Apply(h, m, s, e).value.tasks)
  {
    TablesExtendReflexive(s.tasks);
    match e
    case Start(retry, since) =>
    case Recovered(id, at) => RecoverExtends(h, m, good, s, id, at);
    case Marked(id, at) => MarkExtends(h, m, good, s, id, at);
    case Called(id, at) =>
    case Completed(id, reply, at) =>
      AwaitedReply(h, m, good, s, id, reply, at);
      SettleExtends(m, good, s, id, SearchOnce(h, reply, m.resultLimit), at);
    case Ended =>
  }
}
