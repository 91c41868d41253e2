/**
 The keeper renews the polling lease from a background thread and at the poller's checkpoints,
 until the configured runtime is over. Renewals, the poller and every other process take turns.
 */
module LeaseKeeping {
  import opened Options
  import opened PollLease
  import opened PollClock

  /** Every renewal of this lease expires by `limit`. */
  ghost predicate RenewsWithin(events: seq<Event>, lease: Lease, limit: int) {
    forall i :: 0 <= i < |events| && events[i].Heartbeat? && events[i].lease == lease ==>
      events[i].reading + events[i].duration <= limit
  }

  /** The lease has been issued, and what it was issued for expires by `limit`. */
  ghost predicate Issued(d: Db, lease: Lease, limit: int) {
    && d.open.None? && d.row.Some? && lease.token <= d.row.value.token
    && (Matches(d.row, lease) && d.row.value.expires.Some? ==> d.row.value.expires.value <= limit)
  }

  lemma {:induction false} ExpiryBounded(d: Db, events: seq<Event>, at: seq<int>, lease: Lease, limit: int, k: nat)
    requires Replay(d, events).Some? && Clocked(events, at) && k <= |events|
    requires Issued(d, lease, limit) && RenewsWithin(events, lease, limit)
    ensures var row := At(d, events, k).row;
      Matches(row, lease) && row.value.expires.Some? ==>
        row.value.expires.value <= limit || (k > 0 && row.value.expires.value <= at[k - 1])
    decreases k
  {
    if k == 0 {
      assert events[..0] == [];
    } else {
      ExpiryBounded(d, events, at, lease, limit, k - 1);
      assert events[..0] == [];
      TokensGrow(d, events, 0, k - 1);
      StepAt(d, events, k - 1);
    }
  }

  /** Main result: whatever other processes, transactions and releases come between, a lease renewed only
      within `limit` is valid at no instant from `limit` on. */
  lemma OverByTheLimit(
    d: Db, events: seq<Event>, at: seq<int>, lease: Lease, limit: int, k: nat, x: int)
    requires Replay(d, events).Some? && Clocked(events, at) && Lasts(at, k, x)
    requires Issued(d, lease, limit) && RenewsWithin(events, lease, limit)
    ensures Owns(At(d, events, k).row, lease, x) ==> x < limit
  {
    ExpiryBounded(d, events, at, lease, limit, k);
  }

  /** Who acts next, at which instant. The readings of a wait that ends, of a checkpoint and of a release
      may be older than the instant at which they reach the database. */
  datatype Turn =
    | Wake(reading: int, fails: bool, at: int)
    | Check(reading: int, at: int)
    | Straggle(reading: int, at: int) // a renewal that was waiting for the database when the thread was stopped
    | Leave(reading: int, at: int)
    | OtherTakes(owner: Owner, reading: int, duration: int, at: int)
    | OtherRenews(other: Lease, reading: int, duration: int, at: int)
    | OtherReleases(other: Lease, reading: int, at: int)

  predicate TurnsInOrder(turns: seq<Turn>, start: int) {
    && (forall i :: 0 <= i < |turns| ==> turns[i].reading <= turns[i].at && start <= turns[i].at)
    && forall i, j :: 0 <= i < j < |turns| ==> turns[i].at <= turns[j].at
  }

  predicate OthersForeign(turns: seq<Turn>, lease: Lease) {
    forall i :: 0 <= i < |turns| && (turns[i].OtherRenews? || turns[i].OtherReleases?) ==> turns[i].other != lease
  }

  /** What the turns work on. */
  datatype Scene = Scene(row: Option<Row>, lost: bool, stopped: bool)

  /** The settings of one keeper. */
  datatype Terms = Terms(lease: Lease, duration: int, maximumRuntime: int, started: int)

  function Outlived(t: Terms, reading: int): bool { reading - t.started >= t.maximumRuntime }

  function Extended(row: Option<Row>, lease: Lease, reading: int, duration: int): Option<Row> {
    if Owns(row, lease, reading) then Some(row.value.(expires := Some(reading + duration))) else row
  }

  function Expired(row: Option<Row>, lease: Lease, reading: int): Option<Row> {
    if Matches(row, lease) then Some(row.value.(expires := Some(reading))) else row
  }

  /** What one turn leaves. */
  function After(t: Terms, s: Scene, turn: Turn): Scene {
    match turn
    case Wake(reading, fails, _) =>
      if s.stopped || s.lost then s
      else if Outlived(t, reading) || fails || !Owns(s.row, t.lease, reading) then s.(lost := true)
      else s.(row := Extended(s.row, t.lease, reading, t.duration))
    case Check(reading, _) =>
      if Outlived(t, reading) then s.(lost := true)
      else if s.lost then s
      else s.(row := Extended(s.row, t.lease, reading, t.duration))
    case Straggle(reading, _) =>
      if !s.stopped || s.lost || Outlived(t, reading) then s
      else if !Owns(s.row, t.lease, reading) then s.(lost := true)
      else s.(row := Extended(s.row, t.lease, reading, t.duration))
    case Leave(reading, _) => s.(stopped := true, row := Expired(s.row, t.lease, reading))
    case OtherTakes(owner, reading, duration, _) =>
      var taken := AcquireRow(s.row, owner, reading, duration);
      if taken.Some? then s.(row := taken) else s
    case OtherRenews(other, reading, duration, _) => s.(row := Extended(s.row, other, reading, duration))
    case OtherReleases(other, reading, _) => s.(row := Expired(s.row, other, reading))
  }

  function AfterAll(t: Terms, s: Scene, turns: seq<Turn>): Scene
    decreases |turns|
  {
    if turns == [] then s else After(t, AfterAll(t, s, turns[..|turns| - 1]), turns[|turns| - 1])
  }

  class LeaseKeeper {
    const lock: PollLock
    const lease: Lease
    const duration: int
    const maximumRuntime: int
    const started: int
    var lost: bool
    var stopped: bool
    ghost const origin: Db // just after the acquisition
    ghost var db: Db
    ghost var events: seq<Event>
    ghost var instants: seq<int>

    ghost function Limit(): int { started + maximumRuntime + duration }

    ghost function Settings(): Terms { Terms(lease, duration, maximumRuntime, started) }

    ghost function Now(): int
      reads this
    {
      if instants == [] then started else instants[|instants| - 1]
    }

    ghost function Shown(): Scene
      reads this, lock
    {
      Scene(lock.row, lost, stopped)
    }

    ghost predicate Recorded()
      reads this
    {
      && Issued(origin, lease, Limit()) && RenewsWithin(events, lease, Limit())
      && Replay(origin, events) == Some(db) && db.open.None? && Clocked(events, instants)
    }

    /** The database has the recorded history since the acquisition. */
    ghost predicate Linked()
      reads this, lock
    {
      Recorded() && db.row == lock.row
    }

    /** Over the whole history so far, the lease is valid at no instant from the limit on. */
    ghost predicate Bounded()
      requires Recorded()
      reads this
    {
      forall k: nat, x: int :: Lasts(instants, k, x) && Owns(At(origin, events, k).row, lease, x) ==> x < Limit()
    }

    /** The lease was just acquired, by a reading no later than the start. */
    constructor (lock: PollLock, lease: Lease, reading: int, duration: int, maximumRuntime: int, now: int, ghost d: Db)
      requires d.row == lock.row && d.open.None? && reading <= now && maximumRuntime >= 0
      requires lock.row == Some(Row(lease.owner, lease.token, Some(reading), Some(reading + duration)))
      ensures this.lock == lock && this.lease == lease && this.duration == duration
      ensures this.maximumRuntime == maximumRuntime && started == now && !lost && !stopped
      ensures Linked() && origin == d && events == [] && instants == []
    {
      this.lock, this.lease, this.duration, this.maximumRuntime := lock, lease, duration, maximumRuntime;
      started, lost, stopped := now, false, false;
      origin, db, events, instants := d, d, [], [];
    }

    ghost method Record(e: Event, at: int)
      requires Recorded() && Now() <= at && ReadBy(e, at)
      requires e.Heartbeat? && e.lease == lease ==> e.reading + e.duration <= Limit()
      requires Apply(db, e).Some? && Apply(db, e).value.open.None?
      modifies this`db, this`events, this`instants
      ensures Recorded() && Some(db) == Apply(old(db), e) && Now() == at
      ensures events == old(events) + [e] && instants == old(instants) + [at]
    {
      assert (events + [e])[..|events|] == events;
      db := Apply(db, e).value;
      events, instants := events + [e], instants + [at];
    }

    /** `checkpoint`: the runtime is checked by the reading that the renewal uses. */
    method Checkpoint(reading: int, ghost at: int) returns (ok: bool)
      requires Linked() && Now() <= at && reading <= at
      modifies this`lost, this`db, this`events, this`instants, lock
      ensures Linked() && old(Now()) <= Now() <= at && old(events) <= events
      ensures ok <==> reading - started < maximumRuntime && !old(lost) && Owns(old(lock.row), lease, reading)
      ensures Shown() == After(Settings(), old(Shown()), Check(reading, at))
    {
      if reading - started >= maximumRuntime {
        lost := true;
        return false;
      }
      if lost { return false; }
      ok := lock.Heartbeat(lease, reading, duration);
      Record(Heartbeat(lease, reading, duration), at);
    }

    /** One round of the background thread: renew, or give up for good. */
    method Beat(reading: int, databaseFails: bool, ghost at: int)
      requires Linked() && Now() <= at && reading <= at
      modifies this`lost, this`db, this`events, this`instants, lock
      ensures Linked() && old(Now()) <= Now() <= at && old(events) <= events
      ensures Shown() == After(Settings(), old(Shown()), Wake(reading, databaseFails, at))
    {
      if stopped || lost { return; }
      if reading - started >= maximumRuntime {
        lost := true;
        return;
      }
      if databaseFails {
        lost := true;
        return;
      }
      var ok := lock.Heartbeat(lease, reading, duration);
      Record(Heartbeat(lease, reading, duration), at);
      if !ok { lost := true; }
    }

    /** Leaving waits for the thread only so long: its last renewal may still land, even after the release. */
    method Straggle(reading: int, ghost at: int)
      requires Linked() && Now() <= at && reading <= at
      modifies this`lost, this`db, this`events, this`instants, lock
      ensures Linked() && old(Now()) <= Now() <= at && old(events) <= events
      ensures Shown() == After(Settings(), old(Shown()), Turn.Straggle(reading, at))
    {
      if !stopped || lost || reading - started >= maximumRuntime { return; }
      var ok := lock.Heartbeat(lease, reading, duration);
      Record(Heartbeat(lease, reading, duration), at);
      if !ok { lost := true; }
    }

    /** Leaving: stop the thread, then release the lease. */
    method Leave(reading: int, ghost at: int)
      requires Linked() && Now() <= at && reading <= at
      modifies this`stopped, this`db, this`events, this`instants, lock
      ensures Linked() && old(Now()) <= Now() <= at && stopped && old(events) <= events
      ensures Shown() == After(Settings(), old(Shown()), Turn.Leave(reading, at))
      ensures !Owns(lock.row, lease, at)
    {
      stopped := true;
      lock.Release(lease, reading);
      Record(Release(lease, reading), at);
    }

    /** Another process. */
    method Elsewhere(turn: Turn)
      requires Linked() && Now() <= turn.at && turn.reading <= turn.at
      requires turn.OtherTakes? || ((turn.OtherRenews? || turn.OtherReleases?) && turn.other != lease)
      modifies this`db, this`events, this`instants, lock
      ensures Linked() && old(Now()) <= Now() <= turn.at && old(events) <= events
      ensures Shown() == After(Settings(), old(Shown()), turn)
    {
      match turn
      case OtherTakes(owner, reading, duration, at) =>
        var taken := lock.Acquire(owner, reading, duration);
        Record(Acquire(owner, reading, duration), at);
      case OtherRenews(other, reading, duration, at) =>
        var ok := lock.Heartbeat(other, reading, duration);
        Record(Heartbeat(other, reading, duration), at);
      case OtherReleases(other, reading, at) =>
        lock.Release(other, reading);
        Record(Release(other, reading), at);
      case _ =>
    }

    /** The thread's loop, the poller's checkpoints and its leaving, and every other process, in whatever
        order they come: the lease is never valid past the start, the runtime and one duration. */
    method Run(turns: seq<Turn>)
      requires Linked() && TurnsInOrder(turns, Now()) && OthersForeign(turns, lease)
      modifies this`lost, this`stopped, this`db, this`events, this`instants, lock
      ensures Linked() && Bounded() && old(events) <= events
      ensures Shown() == AfterAll(Settings(), old(Shown()), turns)
    {
      for i := 0 to |turns|
        invariant Linked() && old(events) <= events
        invariant Shown() == AfterAll(Settings(), old(Shown()), turns[..i])
        invariant forall j :: i <= j < |turns| ==> Now() <= turns[j].at
      {
        assert turns[..i + 1][..i] == turns[..i];
        assert forall j :: i < j < |turns| ==> turns[i].at <= turns[j].at;
        match turns[i]
        case Wake(reading, fails, at) => Beat(reading, fails, at);
        case Check(reading, at) => var ok := Checkpoint(reading, at);
        case Straggle(reading, at) => Straggle(reading, at);
        case Leave(reading, at) => Leave(reading, at);
        case _ => Elsewhere(turns[i]);
      }
      assert turns[..|turns|] == turns;
      forall k: nat, x: int | Lasts(instants, k, x) && Owns(At(origin, events, k).row, lease, x)
        ensures x < Limit()
      {
        OverByTheLimit(origin, events, instants, lease, Limit(), k, x);
      }
    }
  }

  /** A poller from its acquisition on: if it gets the lease, its keeper's whole history is bounded. */
  method Hold(
    lock: PollLock, owner: Owner, reading: int, duration: int, maximumRuntime: int, now: int, turns: seq<Turn>)
    returns (keeper: LeaseKeeper?)
    requires reading <= now && maximumRuntime >= 0 && TurnsInOrder(turns, now)
    requires AcquireRow(lock.row, owner, reading, duration).Some? ==>
      OthersForeign(turns, Lease(owner, AcquireRow(lock.row, owner, reading, duration).value.token))
    modifies lock
    ensures keeper == null <==> old(AcquireRow(lock.row, owner, reading, duration)).None?
    ensures keeper == null ==> lock.row == old(lock.row)
    ensures keeper != null ==> fresh(keeper) && keeper.lock == lock && keeper.Linked() && keeper.Bounded()
    ensures keeper != null ==> keeper.Limit() == now + maximumRuntime + duration && keeper.lease.owner == owner
    ensures keeper != null ==>
      keeper.Shown() == AfterAll(
        keeper.Settings(), Scene(old(AcquireRow(lock.row, owner, reading, duration)), false, false), turns)
  {
    var lease := lock.Acquire(owner, reading, duration);
    if lease.None? { return null; }
    keeper := new LeaseKeeper(
      lock, lease.value, reading, duration, maximumRuntime, now, Db(lock.row, None, []));
    keeper.Run(turns);
  }
}
