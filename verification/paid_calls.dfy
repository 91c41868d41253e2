/**
 At-most-once paid work: a row is committed before the callback runs, and what a row says
 decides whether another attempt may start.
 */
module PaidCalls {
  import opened Options

  datatype State = InFlight | Completed | Failed | Indeterminate

  // ---------------------------------------------------------------- concurrent callers of one request

  /** A caller that has read the latest row, and one that has inserted its own. */
  datatype Phase =
    | Idle
    | Decided(next: nat, flagged: bool) // will insert attempt `next`
    | Retrying(prior: nat) // the operator's flag: will first mark `prior` indeterminate
    | Working(no: nat)

  datatype World = World(rows: map<nat, State>, top: nat, callers: map<nat, Phase>)

  datatype Event =
    | Read(c: nat, retry: bool)
    | MarkIndeterminate(c: nat)
    | Insert(c: nat)
    | Finish(c: nat, outcome: State)
    | Die(c: nat)

  function PhaseOf(w: World, c: nat): Phase { if c in w.callers then w.callers[c] else Idle }

  function Put(w: World, c: nat, p: Phase): World { w.(callers := w.callers[c := p]) }

  /** What `execute` decides from the latest row, if it goes on at all. */
  function Decide(prior: Option<State>, top: nat, retry: bool): Phase {
    match prior
    case None => Decided(1, retry)
    case Some(Completed) => Idle
    case Some(Failed) => Decided(top + 1, retry)
    case Some(InFlight) => if retry then Retrying(top) else Idle
    case Some(Indeterminate) => if retry then Decided(top + 1, true) else Idle
  }

  function Latest(w: World): Option<State> { if w.top in w.rows then Some(w.rows[w.top]) else None }

  function Apply(w: World, e: Event): Option<World> {
    match e
    case Read(c, retry) =>
      if PhaseOf(w, c).Idle? then Some(Put(w, c, Decide(Latest(w), w.top, retry))) else None
    case MarkIndeterminate(c) =>
      if PhaseOf(w, c).Retrying? then
        var prior := w.callers[c].prior;
        Some(Put(w.(rows := w.rows[prior := Indeterminate]), c, Decided(prior + 1, true)))
      else None
    case Insert(c) =>
      if !PhaseOf(w, c).Decided? then None
      else
        var no := w.callers[c].next;
        if no in w.rows then Some(Put(w, c, Idle)) // UNIQUE (request_key, attempt_no)
        else Some(Put(w.(rows := w.rows[no := InFlight], top := if w.top < no then no else w.top), c, Working(no)))
    case Finish(c, outcome) =>
      if !PhaseOf(w, c).Working? || outcome.InFlight? then None
      else Some(Put(w.(rows := w.rows[w.callers[c].no := outcome]), c, Idle))
    case Die(c) => Some(Put(w, c, Idle))
  }

  function Replay(w: World, events: seq<Event>): Option<World>
    decreases |events|
  {
    if events == [] then Some(w)
    else
      match Replay(w, events[..|events| - 1])
      case None => None
      case Some(v) => Apply(v, events[|events| - 1])
  }

  const EMPTY := World(map[], 0, map[])

  /** Rows are numbered 1 to `top`; every one but the latest is provably unspent; a caller about to insert
      saw every earlier row unspent. */
  ghost predicate Inv(w: World) {
    && (forall n :: n in w.rows <==> 1 <= n <= w.top)
    && (forall n :: 1 <= n < w.top ==> w.rows[n].Failed?)
    && (forall c :: c in w.callers ==> CallerOk(w, w.callers[c]))
    && (forall c, d :: c in w.callers && d in w.callers && c != d && w.callers[c].Working? && w.callers[d].Working? ==>
          w.callers[c].no != w.callers[d].no)
  }

  ghost predicate CallerOk(w: World, p: Phase) {
    match p
    case Idle => true
    case Retrying(_) => false
    case Decided(next, _) =>
      1 <= next <= w.top + 1 && (next == w.top + 1 && w.top >= 1 ==> w.top in w.rows && w.rows[w.top].Failed?)
    case Working(no) => 1 <= no <= w.top && no in w.rows && w.rows[no].InFlight?
  }

  lemma InsertKeepsInv(w: World, c: nat)
    requires Inv(w) && Apply(w, Insert(c)).Some?
    ensures Inv(Apply(w, Insert(c)).value)
  {
    assert CallerOk(w, w.callers[c]);
  }

  lemma FinishKeepsInv(w: World, c: nat, outcome: State)
    requires Inv(w) && Apply(w, Finish(c, outcome)).Some?
    ensures Inv(Apply(w, Finish(c, outcome)).value)
  {
    var v := Apply(w, Finish(c, outcome)).value;
    assert CallerOk(w, w.callers[c]);
    forall d | d in v.callers ensures CallerOk(v, v.callers[d]) {
      if d != c { assert CallerOk(w, w.callers[d]); }
    }
  }

  lemma StepKeepsInv(w: World, e: Event)
    requires Inv(w) && Apply(w, e).Some? && (e.Read? ==> !e.retry)
    ensures Inv(Apply(w, e).value)
  {
    match e
    case Read(c, retry) =>
    case MarkIndeterminate(c) =>
    case Insert(c) => InsertKeepsInv(w, c);
    case Finish(c, outcome) => FinishKeepsInv(w, c, outcome);
    case Die(c) =>
  }

  ghost predicate Unflagged(events: seq<Event>) {
    forall i :: 0 <= i < |events| && events[i].Read? ==> !events[i].retry
  }

  /** Main result: among any concurrent, dying callers without the retry flag, attempts are numbered
      without gaps and at most one of them is not provably unspent: the latest. */
  lemma {:induction false} AtMostOneSpent(events: seq<Event>)
    requires Replay(EMPTY, events).Some? && Unflagged(events)
    ensures Inv(Replay(EMPTY, events).value)
    ensures var w := Replay(EMPTY, events).value;
      forall m, n :: m in w.rows && n in w.rows && !w.rows[m].Failed? && !w.rows[n].Failed? ==> m == n == w.top
    decreases |events|
  {
    if events != [] {
      var most := events[..|events| - 1];
      assert forall i :: 0 <= i < |most| ==> most[i] == events[i];
      AtMostOneSpent(most);
      StepKeepsInv(Replay(EMPTY, most).value, events[|events| - 1]);
    }
  }

  lemma Played(events: seq<Event>, e: Event)
    requires Replay(EMPTY, events).Some?
    ensures Replay(EMPTY, events + [e]) == Apply(Replay(EMPTY, events).value, e)
  {
    assert (events + [e])[..|events|] == events;
  }

  // ---------------------------------------------------------------- when the flag may be used

  /** The latest attempt is in flight, and the caller that inserted it is alive and working. */
  ghost predicate StillWorking(w: World) {
    w.top in w.rows && w.rows[w.top].InFlight? && exists c :: c in w.callers && w.callers[c] == Working(w.top)
  }

  predicate Bought(w: World) { exists n :: n in w.rows && w.rows[n].Completed? }

  predicate Overwritten(before: map<nat, State>, after: map<nat, State>) {
    exists n :: n in before && before[n].Completed? && (n !in after || !after[n].Completed?)
  }

  /** A completion is overwritten, or what was bought is bought again. */
  predicate Spoils(w: World, e: Event)
    requires Apply(w, e).Some?
  {
    var after := Apply(w, e).value;
    Overwritten(w.rows, after.rows) || (e.Insert? && after.rows != w.rows && Bought(w))
  }

  /** The operators follow a rule on when to set the flag. */
  ghost predicate Obeys(events: seq<Event>, rule: World -> bool)
    ensures Obeys(events, rule) ==> Replay(EMPTY, events).Some?
    decreases |events|
  {
    events == [] ||
    (var most, last := events[..|events| - 1], events[|events| - 1];
      && Obeys(most, rule) && Replay(EMPTY, events).Some?
      && (last.Read? && last.retry ==> rule(Replay(EMPTY, most).value)))
  }

  ghost predicate NeverSpoils(rule: World -> bool) {
    forall events: seq<Event> :: events != [] && Obeys(events, rule) ==>
      !Spoils(Replay(EMPTY, events[..|events| - 1]).value, events[|events| - 1])
  }

  /** Under the rule, no flag is set while the caller of the latest attempt is working. */
  ghost predicate WaitsForTheCaller(rule: World -> bool) {
    forall events: seq<Event> :: Obeys(events, rule) ==>
      !(rule(Replay(EMPTY, events).value) && StillWorking(Replay(EMPTY, events).value))
  }

  /** Earlier rows are failed or written off, a retried row has no caller left, and a caller about to insert
      comes after a row that is not completed. */
  ghost predicate Settling(w: World) {
    && (forall n :: n in w.rows <==> 1 <= n <= w.top)
    && (forall n :: 1 <= n < w.top ==> w.rows[n].Failed? || w.rows[n].Indeterminate?)
    && (forall c :: c in w.callers ==> CallerSettling(w, w.callers[c]))
    && (forall c, d :: c in w.callers && d in w.callers && c != d && w.callers[c].Working? && w.callers[d].Working? ==>
          w.callers[c].no != w.callers[d].no)
  }

  ghost predicate Unmanned(w: World, no: nat) { forall c :: c in w.callers ==> w.callers[c] != Working(no) }

  ghost predicate CallerSettling(w: World, p: Phase) {
    match p
    case Idle => true
    case Retrying(prior) =>
      && 1 <= prior <= w.top && prior in w.rows && (w.rows[prior].InFlight? || w.rows[prior].Indeterminate?)
      && Unmanned(w, prior)
    case Decided(next, _) =>
      && 1 <= next <= w.top + 1
      && (next == w.top + 1 && w.top >= 1 ==>
            w.top in w.rows && (w.rows[w.top].Failed? || w.rows[w.top].Indeterminate?))
    case Working(no) => 1 <= no <= w.top && no in w.rows && w.rows[no].InFlight?
  }

  lemma PlayedObeying(events: seq<Event>, e: Event, rule: World -> bool)
    requires Obeys(events, rule) && Apply(Replay(EMPTY, events).value, e).Some?
    requires e.Read? && e.retry ==> rule(Replay(EMPTY, events).value)
    ensures Obeys(events + [e], rule)
    ensures Replay(EMPTY, events + [e]) == Apply(Replay(EMPTY, events).value, e)
  {
    Played(events, e);
    assert (events + [e])[..|events|] == events;
  }

  lemma ReadSettles(w: World, c: nat, retry: bool)
    requires Settling(w) && Apply(w, Read(c, retry)).Some? && !(retry && StillWorking(w))
    ensures Settling(Apply(w, Read(c, retry)).value) && !Spoils(w, Read(c, retry))
  {
    var v := Apply(w, Read(c, retry)).value;
    assert CallerSettling(v, v.callers[c]) by {
      if v.callers[c].Retrying? { assert Unmanned(w, w.top); }
    }
    forall d | d in v.callers && d != c ensures CallerSettling(v, v.callers[d]) {
      assert CallerSettling(w, w.callers[d]);
    }
  }

  lemma MarkSettles(w: World, c: nat)
    requires Settling(w) && Apply(w, MarkIndeterminate(c)).Some?
    ensures Settling(Apply(w, MarkIndeterminate(c)).value) && !Spoils(w, MarkIndeterminate(c))
  {
    var v := Apply(w, MarkIndeterminate(c)).value;
    assert CallerSettling(w, w.callers[c]);
    forall d | d in v.callers ensures CallerSettling(v, v.callers[d]) {
      if d != c { assert CallerSettling(w, w.callers[d]); }
    }
  }

  lemma InsertSettles(w: World, c: nat)
    requires Settling(w) && Apply(w, Insert(c)).Some?
    ensures Settling(Apply(w, Insert(c)).value) && !Spoils(w, Insert(c))
  {
    var v := Apply(w, Insert(c)).value;
    assert CallerSettling(w, w.callers[c]);
    forall d | d in v.callers ensures CallerSettling(v, v.callers[d]) {
      if d != c { assert CallerSettling(w, w.callers[d]); }
    }
  }

  lemma FinishSettles(w: World, c: nat, outcome: State)
    requires Settling(w) && Apply(w, Finish(c, outcome)).Some?
    ensures Settling(Apply(w, Finish(c, outcome)).value) && !Spoils(w, Finish(c, outcome))
  {
    var v := Apply(w, Finish(c, outcome)).value;
    assert CallerSettling(w, w.callers[c]);
    forall d | d in v.callers ensures CallerSettling(v, v.callers[d]) {
      if d != c { assert CallerSettling(w, w.callers[d]); }
    }
  }

  lemma DeathSettles(w: World, c: nat)
    requires Settling(w)
    ensures Settling(Apply(w, Die(c)).value) && !Spoils(w, Die(c))
  {
    var v := Apply(w, Die(c)).value;
    forall d | d in v.callers ensures CallerSettling(v, v.callers[d]) {
      if d != c { assert CallerSettling(w, w.callers[d]); }
    }
  }

  lemma StepSettles(w: World, e: Event)
    requires Settling(w) && Apply(w, e).Some? && (e.Read? && e.retry ==> !StillWorking(w))
    ensures Settling(Apply(w, e).value) && !Spoils(w, e)
  {
    match e
    case Read(c, retry) => ReadSettles(w, c, retry);
    case MarkIndeterminate(c) => MarkSettles(w, c);
    case Insert(c) => InsertSettles(w, c);
    case Finish(c, outcome) => FinishSettles(w, c, outcome);
    case Die(c) => DeathSettles(w, c);
  }

  lemma {:induction false} WaitingSettles(events: seq<Event>, rule: World -> bool)
    requires WaitsForTheCaller(rule) && Obeys(events, rule)
    ensures Settling(Replay(EMPTY, events).value)
    decreases |events|
  {
    if events != [] {
      var most := events[..|events| - 1];
      WaitingSettles(most, rule);
      StepSettles(Replay(EMPTY, most).value, events[|events| - 1]);
    }
  }

  lemma {:induction false} Newcomer(taken: set<nat>) returns (c: nat)
    ensures c !in taken && forall d :: d in taken ==> d < c
    decreases taken
  {
    c := 0;
    if taken != {} {
      var d :| d in taken;
      c := Newcomer(taken - {d});
      assert forall x :: x in taken ==> x == d || x in taken - {d};
      if c <= d { c := d + 1; }
    }
  }

  /** Rows and callers are numbered from 1 to the latest row. */
  ghost predicate Numbered(w: World) {
    && (w.top == 0 || w.top in w.rows)
    && (forall n :: n in w.rows ==> 1 <= n <= w.top)
    && forall c :: c in w.callers ==>
         match w.callers[c]
         case Idle => true
         case Decided(next, _) => next >= 1
         case Retrying(prior) => 1 <= prior <= w.top
         case Working(no) => 1 <= no <= w.top
  }

  lemma NumberedStep(w: World, e: Event)
    requires Numbered(w) && Apply(w, e).Some?
    ensures Numbered(Apply(w, e).value)
  {
  }

  lemma {:induction false} AlwaysNumbered(events: seq<Event>)
    requires Replay(EMPTY, events).Some?
    ensures Numbered(Replay(EMPTY, events).value)
    decreases |events|
  {
    if events != [] {
      AlwaysNumbered(events[..|events| - 1]);
      NumberedStep(Replay(EMPTY, events[..|events| - 1]).value, events[|events| - 1]);
    }
  }

  /** What a caller makes of the latest row. */
  lemma ReadDecides(w: World, c: nat, retry: bool)
    requires Numbered(w) && PhaseOf(w, c).Idle?
    ensures var v := Apply(w, Read(c, retry));
      && v.Some? && v.value.rows == w.rows && v.value.top == w.top
      && (PhaseOf(v.value, c).Decided? <==>
            w.top !in w.rows || w.rows[w.top] == Failed || (retry && w.rows[w.top] == Indeterminate))
      && (PhaseOf(v.value, c).Decided? ==> v.value.callers[c].next == w.top + 1)
      && (PhaseOf(v.value, c) == Retrying(w.top) <==> w.top in w.rows && retry && w.rows[w.top] == InFlight)
  {
  }

  /** Main result: in any history, a caller that reads and goes straight on starts a new attempt exactly if
      there is none yet, the latest is provably unspent, or the flag is set and the latest is written off. */
  lemma WhoMayStart(events: seq<Event>, c: nat, retry: bool)
    requires Replay(EMPTY, events).Some? && PhaseOf(Replay(EMPTY, events).value, c).Idle?
    ensures var w := Replay(EMPTY, events).value;
      var after := Replay(EMPTY, events + [Read(c, retry)] + [Insert(c)]);
      if w.top !in w.rows || w.rows[w.top] == Failed || (retry && w.rows[w.top] == Indeterminate)
      then after.Some? && after.value.rows == w.rows[w.top + 1 := InFlight]
      else after.None?
    ensures var w := Replay(EMPTY, events).value; w.top !in w.rows <==> w.rows == map[]
  {
    var w := Replay(EMPTY, events).value;
    AlwaysNumbered(events);
    ReadDecides(w, c, retry);
    Played(events, Read(c, retry));
    Played(events + [Read(c, retry)], Insert(c));
    if w.rows != map[] {
      var n :| n in w.rows;
      assert w.top in w.rows;
    }
  }

  /** A flag set while the caller is working: the caller completes, and the retry of `c` then overwrites its
      completion and buys again. */
  lemma FlagRacesCompletion(events: seq<Event>, rule: World -> bool) returns (race: seq<Event>, c: nat)
    requires Obeys(events, rule) && rule(Replay(EMPTY, events).value) && StillWorking(Replay(EMPTY, events).value)
    ensures events <= race && Obeys(race, rule) && |race| == |events| + 3
    ensures race[|events|].Read? && race[|events|].retry && race[|events| + 1].Finish?
    ensures Spoils(Replay(EMPTY, race[..|race| - 1]).value, race[|race| - 1])
    ensures var w := Replay(EMPTY, events).value; var again := Apply(Replay(EMPTY, race).value, Insert(c));
      again.Some? && again.value.rows == w.rows[w.top := Indeterminate][w.top + 1 := InFlight]
  {
    var w := Replay(EMPTY, events).value;
    var worker :| worker in w.callers && w.callers[worker] == Working(w.top);
    c := Newcomer(w.callers.Keys);
    var read, finish, mark := Read(c, true), Finish(worker, Completed), MarkIndeterminate(c);
    PlayedObeying(events, read, rule);
    PlayedObeying(events + [read], finish, rule);
    var done := events + [read] + [finish];
    AlwaysNumbered(events);
    RetryOverwrites(w, Replay(EMPTY, done).value, c);
    PlayedObeying(done, mark, rule);
    race := done + [mark];
    assert race[..|race| - 1] == done;
  }

  /** A retry of an attempt that has completed meanwhile. */
  lemma RetryOverwrites(w: World, late: World, c: nat)
    requires Numbered(w) && w.top in w.rows && late.top == w.top && late.rows == w.rows[w.top := Completed]
    requires PhaseOf(late, c) == Retrying(w.top)
    ensures var mark := Apply(late, MarkIndeterminate(c));
      && mark.Some? && Spoils(late, MarkIndeterminate(c))
      && Apply(mark.value, Insert(c)).Some?
      && Apply(mark.value, Insert(c)).value.rows == w.rows[w.top := Indeterminate][w.top + 1 := InFlight]
  {
    var mark := Apply(late, MarkIndeterminate(c)).value;
    assert late.rows[w.top].Completed? && !mark.rows[w.top].Completed?;
  }

  /** Main result, over all histories of concurrent, dying callers: no completion is ever overwritten and
      nothing completed is bought again exactly if the rule for setting the flag forbids it while the
      caller of the in-flight attempt is still working. */
  lemma FlagIsSafeOnceTheCallerIsGone(rule: World -> bool)
    ensures NeverSpoils(rule) <==> WaitsForTheCaller(rule)
  {
    if WaitsForTheCaller(rule) {
      forall events: seq<Event> | events != [] && Obeys(events, rule)
        ensures !Spoils(Replay(EMPTY, events[..|events| - 1]).value, events[|events| - 1])
      {
        var most := events[..|events| - 1];
        WaitingSettles(most, rule);
        StepSettles(Replay(EMPTY, most).value, events[|events| - 1]);
      }
    }
    if !WaitsForTheCaller(rule) {
      var events :|
        Obeys(events, rule) && rule(Replay(EMPTY, events).value) && StillWorking(Replay(EMPTY, events).value);
      var race, c := FlagRacesCompletion(events, rule);
    }
  }

  /** The code itself has no such rule, so it can happen: two callers are enough. */
  lemma CodeHasNoSuchRule()
    ensures !NeverSpoils(w => true)
  {
    var rule := (w: World) => true;
    var start, insert := Read(1, false), Insert(1);
    PlayedObeying([], start, rule);
    PlayedObeying([] + [start], insert, rule);
    assert StillWorking(Replay(EMPTY, [] + [start] + [insert]).value) by {
      assert Replay(EMPTY, [] + [start] + [insert]).value.callers[1] == Working(1);
    }
    FlagIsSafeOnceTheCallerIsGone(rule);
  }

  // ---------------------------------------------------------------- one caller at a time

  datatype Attempt = Attempt(state: State, flagged: bool)

  datatype Result = AlreadyCompleted | NeedsFlag | Done | Raised | Died

  /** Nothing follows a completed attempt, and a possibly spent one is followed only under the flag. */
  ghost predicate Orderly(rows: seq<Attempt>) {
    forall n :: 0 <= n < |rows| - 1 ==> MayFollow(rows[n], rows[n + 1].flagged)
  }

  predicate PossiblySpent(a: Attempt) { a.state.InFlight? || a.state.Indeterminate? }

  predicate MayFollow(a: Attempt, flagged: bool) { a.state.Failed? || (a.state.Indeterminate? && flagged) }

  lemma OneMore(rows: seq<Attempt>, a: Attempt)
    requires Orderly(rows) && (rows != [] ==> MayFollow(rows[|rows| - 1], a.flagged))
    ensures Orderly(rows + [a])
  {
    forall n | 0 <= n < |rows| ensures MayFollow(rows[n], (rows + [a])[n + 1].flagged) {
      if n < |rows| - 1 { assert MayFollow(rows[n], rows[n + 1].flagged); }
    }
  }

  lemma LastChanged(rows: seq<Attempt>, a: Attempt)
    requires Orderly(rows) && rows != [] && a.flagged == rows[|rows| - 1].flagged
    ensures Orderly(rows[|rows| - 1 := a])
  {
    var next := rows[|rows| - 1 := a];
    forall n | 0 <= n < |next| - 1 ensures MayFollow(next[n], next[n + 1].flagged) {
      assert MayFollow(rows[n], rows[n + 1].flagged);
    }
  }

  function LastAttempt(rows: seq<Attempt>): Attempt
    requires rows != []
  {
    rows[|rows| - 1]
  }

  /** What a flagged retry makes of the attempts before its own: one still running is written off. */
  function Settled(rows: seq<Attempt>): seq<Attempt> {
    if rows != [] && LastAttempt(rows).state.InFlight?
    then rows[|rows| - 1 := LastAttempt(rows).(state := Indeterminate)]
    else rows
  }

  /** What a death during the work leaves: the new attempt, still in flight. */
  ghost predicate Abandoned(before: seq<Attempt>, after: seq<Attempt>, retry: bool) {
    after == Settled(before) + [Attempt(InFlight, retry)]
  }

  class PaidLedger {
    var rows: seq<Attempt> // attempts 1, 2, ... of one request key
    ghost var runs: nat // how often the callback was started

    constructor ()
      ensures rows == [] && runs == 0
    {
      rows, runs := [], 0;
    }

    /** `execute`; `did` is what the callback turns out to have done: completed, provably not bought, or
        unclear. The latest attempt alone decides whether the work is started: `AlreadyCompleted` and
        `NeedsFlag` are the two refusals, and a death leaves a row in flight for the next caller. */
    method Execute(retry: bool, did: State, mortal: bool) returns (r: Result)
      requires Orderly(rows) && !did.InFlight?
      modifies this
      ensures Orderly(rows)
      ensures r.AlreadyCompleted? <==> old(rows) != [] && LastAttempt(old(rows)).state.Completed?
      ensures r.NeedsFlag? <==> !retry && old(rows) != [] && PossiblySpent(LastAttempt(old(rows)))
      ensures !retry && old(rows) != [] && LastAttempt(old(rows)).state in {InFlight, Indeterminate} ==> r.NeedsFlag?
      ensures r.NeedsFlag? ==> !retry && old(rows) != [] && LastAttempt(old(rows)).state in {InFlight, Indeterminate}
      ensures r.AlreadyCompleted? || r.NeedsFlag? ==> rows == old(rows) && runs == old(runs)
      ensures r.Done? || r.Raised? ==> rows == Settled(old(rows)) + [Attempt(did, retry)] && runs == old(runs) + 1
      ensures r.Done? ==> did.Completed?
      ensures r.Raised? ==> !did.Completed?
      ensures r.Died? ==> mortal
      ensures r.Died? ==> rows in {old(rows), Settled(old(rows))} || Abandoned(old(rows), rows, retry)
      ensures r.Died? ==> runs == old(runs) || (runs == old(runs) + 1 && Abandoned(old(rows), rows, retry))
    {
      var n := |rows|;
      if n > 0 {
        var prior := rows[n - 1];
        if prior.state.Completed? { return AlreadyCompleted; }
        if prior.state.InFlight? || prior.state.Indeterminate? {
          if !retry { return NeedsFlag; }
          var early: bool := *;
          if mortal && early { return Died; }
          LastChanged(rows, prior.(state := Indeterminate));
          if prior.state.InFlight? { rows := rows[n - 1 := prior.(state := Indeterminate)]; }
        }
      }
      var struck: bool := *;
      if mortal && struck { return Died; }
      OneMore(rows, Attempt(InFlight, retry));
      rows := rows + [Attempt(InFlight, retry)];
      struck := *;
      if mortal && struck { return Died; }
      runs := runs + 1;
      struck := *;
      if mortal && struck { return Died; }
      LastChanged(rows, Attempt(did, retry));
      rows := rows[n := Attempt(did, retry)];
      r := if did.Completed? then Done else Raised;
    }
  }
}
