/**
 The polling lease in time: every event happens at an instant of one nondecreasing clock, and uses
 a reading of that clock taken no later. A state of the database lasts from one event to the next.
 */
module PollClock {
  import opened Options
  import opened PollLease

  /** A reading taken before waiting for the write lock may be old, but not from the future. */
  predicate ReadBy(e: Event, at: int) {
    match e
    case Acquire(_, reading, _) => reading <= at
    case Heartbeat(_, reading, _) => reading <= at
    case Release(_, reading) => reading <= at
    case FirstCheck(reading) => reading <= at
    case SecondCheck(reading) => reading <= at
    case _ => true
  }

  ghost predicate Clocked(events: seq<Event>, at: seq<int>) {
    && |at| == |events|
    && (forall i, j :: 0 <= i <= j < |at| ==> at[i] <= at[j])
    && forall i :: 0 <= i < |events| ==> ReadBy(events[i], at[i])
  }

  /** State `k` is the one the database has at instant `x`. */
  ghost predicate Lasts(at: seq<int>, k: nat, x: int) {
    k <= |at| && (k == 0 || at[k - 1] <= x) && (k == |at| || x < at[k])
  }

  // ---------------------------------------------------------------- one lease at a time

  lemma {:induction false} TokensGrow(d: Db, events: seq<Event>, i: nat, j: nat)
    requires Replay(d, events).Some? && i <= j <= |events| && At(d, events, i).row.Some?
    ensures At(d, events, j).row.Some?
    ensures At(d, events, i).row.value.token <= At(d, events, j).row.value.token
    ensures At(d, events, i).row.value.token == At(d, events, j).row.value.token ==>
      At(d, events, i).row.value.owner == At(d, events, j).row.value.owner
    decreases j
  {
    if i < j {
      TokensGrow(d, events, i, j - 1);
      StepAt(d, events, j - 1);
      RowStep(At(d, events, j - 1), events[j - 1]);
    }
  }

  lemma RowStep(d: Db, e: Event)
    requires Apply(d, e).Some? && d.row.Some?
    ensures var after := Apply(d, e).value.row;
      && after.Some? && d.row.value.token <= after.value.token
      && (d.row.value.token == after.value.token ==> d.row.value.owner == after.value.owner)
  {
  }

  /** Main result: the leases that are valid, instant after instant, have growing tokens. So at most one
      lease is valid at any instant, and the times of two leases neither overlap nor alternate. */
  lemma ValidInTurn(d: Db, events: seq<Event>, at: seq<int>, i: nat, x: int, a: Lease, j: nat, y: int, b: Lease)
    requires Replay(d, events).Some? && Clocked(events, at) && x <= y
    requires Lasts(at, i, x) && Owns(At(d, events, i).row, a, x)
    requires Lasts(at, j, y) && Owns(At(d, events, j).row, b, y)
    ensures a == b || (a.token < b.token && x < y)
  {
    assert i <= j;
    TokensGrow(d, events, i, j);
  }

  /** Only a takeover supersedes, and only once the stored deadline is over. */
  lemma TakenOver(d: Db, e: Event, at: int, lease: Lease)
    requires Apply(d, e).Some? && ReadBy(e, at) && Matches(d.row, lease) && !Matches(Apply(d, e).value.row, lease)
    ensures e.Acquire? && (Deadline(d.row.value).Some? ==> Deadline(d.row.value).value <= at)
    ensures Apply(d, e).value.row ==
      Some(Row(e.owner, lease.token + 1, Some(e.reading), Some(e.reading + e.duration)))
  {
  }

  lemma PowerlessAfter(d: Db, events: seq<Event>, j: nat, lease: Lease)
    requires Replay(d, events).Some? && j <= |events|
    requires At(d, events, j).row.Some? && lease.token < At(d, events, j).row.value.token
    ensures forall m, reading :: j <= m <= |events| ==> !Owns(At(d, events, m).row, lease, reading)
  {
    forall m, reading | j <= m <= |events| ensures !Owns(At(d, events, m).row, lease, reading) {
      TokensGrow(d, events, j, m);
    }
  }

  /** Main result: a lease that is superseded was superseded by a takeover at an instant when the last
      expiry it had was over, and from then on it owns nothing at any reading. */
  lemma {:induction false} SupersededHadExpired(
    d: Db, events: seq<Event>, at: seq<int>, i: nat, j: nat, lease: Lease) returns (k: nat)
    requires Replay(d, events).Some? && Clocked(events, at) && i <= j <= |events|
    requires Matches(At(d, events, i).row, lease) && !Matches(At(d, events, j).row, lease)
    ensures i <= k < j && events[k].Acquire? && Matches(At(d, events, k).row, lease)
    ensures Deadline(At(d, events, k).row.value).Some? ==> Deadline(At(d, events, k).row.value).value <= at[k]
    ensures At(d, events, k + 1).row ==
      Some(Row(events[k].owner, lease.token + 1, Some(events[k].reading), Some(events[k].reading + events[k].duration)))
    ensures forall m, reading :: k < m <= |events| ==> !Owns(At(d, events, m).row, lease, reading)
    decreases j
  {
    if Matches(At(d, events, j - 1).row, lease) {
      k := j - 1;
      StepAt(d, events, k);
      TakenOver(At(d, events, k), events[k], at[k], lease);
      PowerlessAfter(d, events, j, lease);
    } else {
      k := SupersededHadExpired(d, events, at, i, j - 1, lease);
    }
  }

  // ---------------------------------------------------------------- revival

  /** A lease that has expired is valid again after event `k`. */
  ghost predicate Revived(d: Db, events: seq<Event>, at: seq<int>, k: nat, lease: Lease)
    requires Replay(d, events).Some? && Clocked(events, at) && k < |events|
  {
    && Matches(At(d, events, k).row, lease) && !Owns(At(d, events, k).row, lease, at[k])
    && Owns(At(d, events, k + 1).row, lease, at[k])
  }

  /** Main result: an expired lease is revived exactly by a heartbeat that read the clock before the expiry,
      reached the database at or after it, and not a whole duration later. */
  lemma RevivedByHeartbeat(d: Db, events: seq<Event>, at: seq<int>, k: nat, lease: Lease)
    requires Replay(d, events).Some? && Clocked(events, at) && k < |events|
    ensures Revived(d, events, at, k, lease) <==>
      var row := At(d, events, k).row;
      && events[k].Heartbeat? && events[k].lease == lease && Matches(row, lease) && row.value.expires.Some?
      && events[k].reading < row.value.expires.value <= at[k] < events[k].reading + events[k].duration
  {
    StepAt(d, events, k);
  }

  /** Leases of one duration, whose heartbeats reach the database as late as `late` allows. */
  ghost predicate Conforms(events: seq<Event>, at: seq<int>, duration: int, late: (int, int) -> bool)
    requires |at| == |events|
  {
    && (forall i :: 0 <= i < |events| && (events[i].Acquire? || events[i].Heartbeat?) ==>
          events[i].duration == duration)
    && forall i :: 0 <= i < |events| && events[i].Heartbeat? ==> late(events[i].reading, at[i])
  }

  const EMPTY := Db(None, None, [])

  ghost predicate NoneRevived(events: seq<Event>, at: seq<int>)
    requires Replay(EMPTY, events).Some? && Clocked(events, at)
  {
    forall k: nat, lease: Lease :: k < |events| ==> !Revived(EMPTY, events, at, k, lease)
  }

  ghost predicate NeverRevives(duration: int, late: (int, int) -> bool) {
    forall events: seq<Event>, at: seq<int> ::
      Replay(EMPTY, events).Some? && Clocked(events, at) && Conforms(events, at, duration, late) ==>
        NoneRevived(events, at)
  }

  /** Heartbeats arrive at the instant they read, or so late that what they write has expired. */
  ghost predicate Timely(duration: int, late: (int, int) -> bool) {
    forall reading, at :: late(reading, at) ==> at <= reading || at >= reading + duration
  }

  /** A history in which a heartbeat that read the clock at `reading` revives its lease at `at`. */
  lemma LateHeartbeat(duration: int, reading: int, at: int) returns (events: seq<Event>, instants: seq<int>)
    requires reading < at < reading + duration
    ensures Replay(EMPTY, events).Some? && Clocked(events, instants) && |events| == 2
    ensures Conforms(events, instants, duration, (r, a) => r == reading && a == at)
    ensures events[1] == Heartbeat(Lease(0, 1), reading, duration) && instants[1] == at
    ensures Revived(EMPTY, events, instants, 1, Lease(0, 1))
  {
    var taken := reading + 1 - duration;
    events, instants := [Acquire(0, taken, duration), Heartbeat(Lease(0, 1), reading, duration)], [taken, at];
    assert events[..1] == [Acquire(0, taken, duration)] && events[..1][..0] == [];
    var first := Row(0, 1, Some(taken), Some(reading + 1));
    assert Replay(EMPTY, events[..0]) == Some(EMPTY);
    assert [] + [Acquired(0, 1)] == [Acquired(0, 1)];
    assert Apply(EMPTY, events[0]) == Some(Db(Some(first), None, [Acquired(0, 1)]));
    assert Replay(EMPTY, events[..1]) == Apply(EMPTY, events[0]);
    assert events[..2] == events;
  }

  /** Main result: an expired owner can never revive itself exactly if no heartbeat may reach the database
      after the instant it read and within a duration of it. Reading the clock inside the transaction
      suffices; reading it before waiting for the write lock, as the code does, does not. */
  lemma NeverRevivesIfTimely(duration: int, late: (int, int) -> bool)
    ensures NeverRevives(duration, late) <==> Timely(duration, late)
  {
    if Timely(duration, late) {
      forall events: seq<Event>, at: seq<int>, k: nat, lease: Lease |
        Replay(EMPTY, events).Some? && Clocked(events, at) && Conforms(events, at, duration, late) && k < |events|
        ensures !Revived(EMPTY, events, at, k, lease)
      {
        RevivedByHeartbeat(EMPTY, events, at, k, lease);
      }
    }
    if !Timely(duration, late) {
      var reading, instant :| late(reading, instant) && reading < instant < reading + duration;
      var events, at := LateHeartbeat(duration, reading, instant);
      assert Conforms(events, at, duration, late) && !NoneRevived(events, at);
    }
  }

  /** Main result: then a lease that has been issued and is not valid at one instant is valid at no later
      one: the time of every lease is one interval. */
  lemma {:induction false} ExpiredForGood(
    d: Db, events: seq<Event>, at: seq<int>, duration: int, late: (int, int) -> bool, i: nat, x: int, j: nat, y: int,
    lease: Lease)
    requires Replay(d, events).Some? && Clocked(events, at) && Conforms(events, at, duration, late)
    requires Timely(duration, late) && x <= y && i <= j
    requires Lasts(at, i, x) && At(d, events, i).row.Some? && lease.token <= At(d, events, i).row.value.token
    requires !Owns(At(d, events, i).row, lease, x)
    requires j <= |at| && (j == 0 || at[j - 1] <= y)
    ensures !Owns(At(d, events, j).row, lease, y)
    decreases j
  {
    if i < j {
      var now := at[j - 1];
      assert x < at[i] <= now;
      ExpiredForGood(d, events, at, duration, late, i, x, j - 1, now, lease);
      TokensGrow(d, events, i, j - 1);
      StepAt(d, events, j - 1);
      var e := events[j - 1];
      if e.Heartbeat? { assert late(e.reading, now); }
    }
  }
}
