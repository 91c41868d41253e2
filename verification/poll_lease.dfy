/**
 The fenced polling lease: one row per lock name, whose token grows at every takeover, and
 write transactions that check ownership twice while they hold the database's write lock.

 Instants are integers. A step carries the clock reading it uses, which it may have taken
 earlier: `acquire`, `heartbeat` and `release` read the clock before they wait for the lock.
 */
module PollLease {
  import opened Options

  type Owner = nat
  type Pid = nat

  /** A stored lock. Rows of the old format have no expiry, and are judged by their acquisition time. */
  datatype Row = Row(owner: Owner, token: nat, acquired: Option<int>, expires: Option<int>)

  datatype Lease = Lease(owner: Owner, token: nat)

  function Deadline(row: Row): Option<int> { if row.expires.Some? then row.expires else row.acquired }

  /** `acquire`: refused while the stored deadline lies after the reading. */
  function AcquireRow(row: Option<Row>, owner: Owner, reading: int, duration: int): Option<Row> {
    match row
    case None => Some(Row(owner, 1, Some(reading), Some(reading + duration)))
    case Some(r) =>
      if Deadline(r).Some? && Deadline(r).value > reading then None
      else Some(Row(owner, r.token + 1, Some(reading), Some(reading + duration)))
  }

  /** `_assert_owned_locked`. */
  predicate Owns(row: Option<Row>, lease: Lease, reading: int) {
    && row.Some? && row.value.owner == lease.owner && row.value.token == lease.token
    && row.value.expires.Some? && row.value.expires.value > reading
  }

  predicate Matches(row: Option<Row>, lease: Lease) {
    row.Some? && row.value.owner == lease.owner && row.value.token == lease.token
  }

  class PollLock {
    var row: Option<Row>

    constructor ()
      ensures row == None
    {
      row := None;
    }

    method Acquire(owner: Owner, reading: int, duration: int) returns (lease: Option<Lease>)
      modifies this
      ensures lease.None? <==> AcquireRow(old(row), owner, reading, duration).None?
      ensures lease.None? ==> row == old(row)
      ensures lease.Some? ==> row == AcquireRow(old(row), owner, reading, duration)
      ensures lease.Some? ==> Matches(row, lease.value) && lease.value.owner == owner
      ensures lease.Some? && old(row).Some? ==> lease.value.token == old(row).value.token + 1
      ensures lease.None? <==> old(row).Some? && (match old(row).value.expires
                                                  case Some(e) => e > reading
                                                  case None => match old(row).value.acquired
                                                               case Some(a) => a > reading
                                                               case None => false)
      ensures lease.Some? ==> row.value.acquired == Some(reading) && row.value.expires == Some(reading + duration)
      ensures lease.Some? && old(row).None? ==> lease.value.token == 1
    {
      var token := 1;
      if row.Some? {
        var stored := Deadline(row.value);
        if stored.Some? && stored.value > reading { return None; }
        token := row.value.token + 1;
      }
      row := Some(Row(owner, token, Some(reading), Some(reading + duration)));
      lease := Some(Lease(owner, token));
    }

    /** Only the current, unexpired token is renewed. */
    method Heartbeat(lease: Lease, reading: int, duration: int) returns (ok: bool)
      modifies this
      ensures ok <==> Owns(old(row), lease, reading)
      ensures ok <==> old(row).Some? && Lease(old(row).value.owner, old(row).value.token) == lease
                      && old(row).value.expires.Some? && reading < old(row).value.expires.value
      ensures row == if ok then Some(old(row).value.(expires := Some(reading + duration))) else old(row)
    {
      if !Owns(row, lease, reading) { return false; }
      row := Some(row.value.(expires := Some(reading + duration)));
      ok := true;
    }

    /** Only this token expires; an obsolete lease changes nothing. */
    method Release(lease: Lease, reading: int)
      modifies this
      ensures row == if Matches(old(row), lease) then Some(old(row).value.(expires := Some(reading))) else old(row)
    {
      if Matches(row, lease) { row := Some(row.value.(expires := Some(reading))); }
    }
  }

  // ---------------------------------------------------------------- the lock and its transactions

  datatype Stage = Begun | Checked | Verified

  /** The one transaction holding the write lock. */
  datatype Tx = Tx(pid: Pid, lease: Lease, stage: Stage)

  datatype Entry =
    | Acquired(owner: Owner, token: nat)
    | Committed(pid: Pid, lease: Lease)

  function TokenOf(e: Entry): nat {
    match e
    case Acquired(_, token) => token
    case Committed(_, lease) => lease.token
  }

  function OwnerOf(e: Entry): Owner {
    match e
    case Acquired(owner, _) => owner
    case Committed(_, lease) => lease.owner
  }

  datatype Db = Db(row: Option<Row>, open: Option<Tx>, log: seq<Entry>)

  datatype Event =
    | Acquire(owner: Owner, reading: int, duration: int)
    | Heartbeat(lease: Lease, reading: int, duration: int)
    | Release(lease: Lease, reading: int)
    | Begin(pid: Pid, lease: Lease)
    | FirstCheck(reading: int)
    | SecondCheck(reading: int)
    | Commit
    | Abort // an exception, or the process dies

  /** The next database, or None where the event cannot happen: whoever needs the write lock waits. */
  function Apply(d: Db, e: Event): Option<Db> {
    match e
    case Acquire(owner, reading, duration) =>
      if d.open.Some? then None
      else
        var taken := AcquireRow(d.row, owner, reading, duration);
        if taken.None? then Some(d)
        else Some(d.(row := taken, log := d.log + [Acquired(owner, taken.value.token)]))
    case Heartbeat(lease, reading, duration) =>
      if d.open.Some? then None
      else if Owns(d.row, lease, reading) then
        Some(d.(row := Some(d.row.value.(expires := Some(reading + duration)))))
      else Some(d)
    case Release(lease, reading) =>
      if d.open.Some? then None
      else if Matches(d.row, lease) then Some(d.(row := Some(d.row.value.(expires := Some(reading)))))
      else Some(d)
    case Begin(pid, lease) => if d.open.Some? then None else Some(d.(open := Some(Tx(pid, lease, Begun))))
    case FirstCheck(reading) =>
      if d.open.None? || !d.open.value.stage.Begun? then None
      else if Owns(d.row, d.open.value.lease, reading) then Some(d.(open := Some(d.open.value.(stage := Checked))))
      else Some(d.(open := None))
    case SecondCheck(reading) =>
      if d.open.None? || !d.open.value.stage.Checked? then None
      else if Owns(d.row, d.open.value.lease, reading) then Some(d.(open := Some(d.open.value.(stage := Verified))))
      else Some(d.(open := None))
    case Commit =>
      if d.open.None? || !d.open.value.stage.Verified? then None
      else Some(d.(open := None, log := d.log + [Committed(d.open.value.pid, d.open.value.lease)]))
    case Abort => if d.open.None? then None else Some(d.(open := None))
  }

  function Replay(d: Db, events: seq<Event>): Option<Db>
    decreases |events|
  {
    if events == [] then Some(d)
    else
      match Replay(d, events[..|events| - 1])
      case None => None
      case Some(v) => Apply(v, events[|events| - 1])
  }

  lemma {:induction false} PrefixReplays(d: Db, events: seq<Event>, k: nat)
    requires Replay(d, events).Some? && k <= |events|
    ensures Replay(d, events[..k]).Some?
    decreases |events|
  {
    if k == |events| {
      assert events[..k] == events;
    } else {
      PrefixReplays(d, events[..|events| - 1], k);
      assert events[..|events| - 1][..k] == events[..k];
    }
  }

  /** The database before event `k`. */
  function At(d: Db, events: seq<Event>, k: nat): Db
    requires Replay(d, events).Some? && k <= |events|
  {
    PrefixReplays(d, events, k);
    Replay(d, events[..k]).value
  }

  lemma StepAt(d: Db, events: seq<Event>, k: nat)
    requires Replay(d, events).Some? && k < |events|
    ensures Apply(At(d, events, k), events[k]) == Some(At(d, events, k + 1))
  {
    PrefixReplays(d, events, k + 1);
    assert events[..k + 1][..k] == events[..k];
  }

  // ---------------------------------------------------------------- fencing, with no assumption on clocks

  /** Tokens only grow along the log, and every takeover has a new one. */
  ghost predicate Fenced(log: seq<Entry>) {
    forall i, j :: 0 <= i < j < |log| ==>
      && TokenOf(log[i]) <= TokenOf(log[j])
      && (log[j].Acquired? ==> TokenOf(log[i]) < TokenOf(log[j]))
      && (TokenOf(log[i]) == TokenOf(log[j]) ==> OwnerOf(log[i]) == OwnerOf(log[j]))
  }

  /** The row carries the newest token, and an open transaction that passed its check carries the row's. */
  ghost predicate Inv(d: Db) {
    && Fenced(d.log)
    && (d.log != [] ==> d.row.Some?)
    && (forall i :: 0 <= i < |d.log| ==>
          TokenOf(d.log[i]) <= d.row.value.token
          && (TokenOf(d.log[i]) == d.row.value.token ==> OwnerOf(d.log[i]) == d.row.value.owner))
    && (d.open.Some? && !d.open.value.stage.Begun? ==> Matches(d.row, d.open.value.lease))
  }

  lemma FencedAppend(log: seq<Entry>, e: Entry, row: Row)
    requires Fenced(log)
    requires forall i :: 0 <= i < |log| ==>
      TokenOf(log[i]) <= row.token && (TokenOf(log[i]) == row.token ==> OwnerOf(log[i]) == row.owner)
    requires if e.Acquired? then TokenOf(e) > row.token else TokenOf(e) == row.token && OwnerOf(e) == row.owner
    ensures Fenced(log + [e])
  {
  }

  lemma AcquireKeepsInv(d: Db, owner: Owner, reading: int, duration: int)
    requires Inv(d) && d.open.None?
    ensures Inv(Apply(d, Acquire(owner, reading, duration)).value)
  {
    var taken := AcquireRow(d.row, owner, reading, duration);
    if taken.Some? && d.row.Some? { FencedAppend(d.log, Acquired(owner, taken.value.token), d.row.value); }
  }

  lemma CommitKeepsInv(d: Db)
    requires Inv(d) && Apply(d, Commit).Some?
    ensures Inv(Apply(d, Commit).value)
  {
    FencedAppend(d.log, Committed(d.open.value.pid, d.open.value.lease), d.row.value);
  }

  lemma StepKeepsInv(d: Db, e: Event)
    requires Inv(d) && Apply(d, e).Some?
    ensures Inv(Apply(d, e).value)
  {
    if e.Acquire? { AcquireKeepsInv(d, e.owner, e.reading, e.duration); }
    else if e.Commit? { CommitKeepsInv(d); }
    else { assert Apply(d, e).value.log == d.log; }
  }

  lemma {:induction false} ReachedInv(d: Db, events: seq<Event>)
    requires Inv(d) && Replay(d, events).Some?
    ensures Inv(Replay(d, events).value)
    decreases |events|
  {
    if events != [] {
      ReachedInv(d, events[..|events| - 1]);
      StepKeepsInv(Replay(d, events[..|events| - 1]).value, events[|events| - 1]);
    }
  }

  /** Main result, for any readings of any clocks: the writes committed under one token stand together in
      the log, by one owner, and nothing commits under a token once a larger one was acquired. */
  lemma CommitsAreFenced(row: Option<Row>, events: seq<Event>, i: nat, j: nat)
    requires Replay(Db(row, None, []), events).Some?
    requires i < j < |Replay(Db(row, None, []), events).value.log|
    ensures var log := Replay(Db(row, None, []), events).value.log;
      && TokenOf(log[i]) <= TokenOf(log[j])
      && (log[j].Acquired? ==> TokenOf(log[i]) < TokenOf(log[j]))
      && (TokenOf(log[i]) == TokenOf(log[j]) ==>
            forall k :: i <= k <= j ==> TokenOf(log[k]) == TokenOf(log[i]) && OwnerOf(log[k]) == OwnerOf(log[i]))
  {
    ReachedInv(Db(row, None, []), events);
    var log := Replay(Db(row, None, []), events).value.log;
    assert Fenced(log);
  }

  // ---------------------------------------------------------------- the two checks of a commit

  /** The first check of the open transaction passed at event `f`, and the row is the one it saw. */
  ghost predicate FirstPassed(d: Db, events: seq<Event>, k: nat, f: nat)
    requires Replay(d, events).Some? && k <= |events|
  {
    && f < k && events[f].FirstCheck? && At(d, events, k).open.Some?
    && At(d, events, k).row == At(d, events, f).row
    && Owns(At(d, events, k).row, At(d, events, k).open.value.lease, events[f].reading)
  }

  ghost predicate SecondPassed(d: Db, events: seq<Event>, k: nat, s: nat)
    requires Replay(d, events).Some? && k <= |events|
  {
    && s < k && events[s].SecondCheck? && At(d, events, k).open.Some?
    && At(d, events, k).row == At(d, events, s).row
    && Owns(At(d, events, k).row, At(d, events, k).open.value.lease, events[s].reading)
  }

  /** Main result: whatever is committed was checked against the lease twice, before and after the work,
      on the row that is still there at the commit: nobody renewed, released or took the lease between. A
      transaction that outlived its lease by the second reading never commits. */
  lemma {:induction false} CommitsAreCheckedTwice(d: Db, events: seq<Event>, k: nat) returns (f: nat, s: nat)
    requires Replay(d, events).Some? && d.open.None? && k < |events| && events[k].Commit?
    ensures f < s < k && FirstPassed(d, events, k, f) && SecondPassed(d, events, k, s)
    ensures forall i :: f <= i <= k ==> At(d, events, i).row == At(d, events, k).row
  {
    StepAt(d, events, k);
    f, s := Checks(d, events, k);
  }

  lemma {:induction false} Checks(d: Db, events: seq<Event>, k: nat) returns (f: nat, s: nat)
    requires Replay(d, events).Some? && d.open.None? && k <= |events|
    requires At(d, events, k).open.Some? && !At(d, events, k).open.value.stage.Begun?
    ensures f < k && FirstPassed(d, events, k, f)
    ensures forall i :: f <= i <= k ==> At(d, events, i).row == At(d, events, k).row
    ensures At(d, events, k).open.value.stage.Verified? ==> f < s && SecondPassed(d, events, k, s)
  {
    if k > 0 {
      StepAt(d, events, k - 1);
      if events[k - 1].FirstCheck? {
        f, s := k - 1, 0;
      } else {
        f, s := Checks(d, events, k - 1);
        if events[k - 1].SecondCheck? { s := k - 1; }
      }
    }
  }

  // ---------------------------------------------------------------- leases that were taken over

  lemma TokenStep(d: Db, e: Event)
    requires Apply(d, e).Some?
    ensures d.row.Some? ==>
      Apply(d, e).value.row.Some? && d.row.value.token <= Apply(d, e).value.row.value.token
  {
  }

  /** Main result: a lease whose token was taken over is powerless for ever, whatever the clocks say: it
      owns nothing, its heartbeats and releases change nothing, and its transactions are turned away. */
  lemma {:induction false} SupersededStays(d: Db, events: seq<Event>, lease: Lease, reading: int)
    requires d.row.Some? && lease.token < d.row.value.token && Replay(d, events).Some?
    ensures var v := Replay(d, events).value;
      && v.row.Some? && lease.token < v.row.value.token
      && !Owns(v.row, lease, reading)
      && (v.open.None? ==> Apply(v, Release(lease, reading)) == Some(v))
      && (v.open.Some? && v.open.value.lease == lease && v.open.value.stage.Begun? ==>
            Apply(v, FirstCheck(reading)) == Some(v.(open := None)))
    decreases |events|
  {
    if events != [] {
      SupersededStays(d, events[..|events| - 1], lease, reading);
      TokenStep(Replay(d, events[..|events| - 1]).value, events[|events| - 1]);
    }
  }

  predicate Renews(e: Event, lease: Lease) { (e.Heartbeat? || e.Release?) && e.lease == lease }

  /** The history without this lease's heartbeats and releases. */
  function Without(events: seq<Event>, lease: Lease): seq<Event> {
    if events == [] then []
    else
      var last := events[|events| - 1];
      Without(events[..|events| - 1], lease) + if Renews(last, lease) then [] else [last]
  }

  /** Main result: the heartbeats and releases of a lease that was taken over make no difference to anyone,
      wherever they fall. */
  lemma {:induction false} ObsoleteIsHarmless(d: Db, events: seq<Event>, lease: Lease)
    requires d.row.Some? && lease.token < d.row.value.token && Replay(d, events).Some?
    ensures Replay(d, Without(events, lease)) == Replay(d, events)
    decreases |events|
  {
    if events != [] {
      var most, last := events[..|events| - 1], events[|events| - 1];
      ObsoleteIsHarmless(d, most, lease);
      SupersededStays(d, most, lease, 0);
      if !Renews(last, lease) {
        assert (Without(most, lease) + [last])[..|Without(most, lease)|] == Without(most, lease);
      } else {
        assert Without(events, lease) == Without(most, lease);
      }
    }
  }
}
