/**
 Poll runs under the lease: any number of processes, each with its own open run and the keys it
 has seen, write through fenced transactions. What they commit, in the order of the lease's log, is
 a history of `PollRuns`, in which there is one run at a time and a takeover ends the old one.
 */
module PollFencing {
  import opened Options
  import L = PollLease
  import R = PollRuns
  import PollStore

  /** A process acquires the lease once, under an owner name of its own. */
  datatype Process = Process(lease: L.Lease, phase: R.Phase)

  datatype System = System(
    db: L.Db, store: PollStore.Store, runs: map<nat, R.Run>, processes: map<L.Pid, Process>)

  datatype Act =
    | Acquire(pid: L.Pid, reading: int, duration: int)
    | Renew(pid: L.Pid, reading: int, duration: int)
    | Release(pid: L.Pid, reading: int)
    | Begin(pid: L.Pid)
    | FirstCheck(reading: int)
    | SecondCheck(reading: int)
    | Commit(write: R.Event) // the open transaction's process, from its own run and keys
    | Abort // an exception, or the process dies; a process that stops simply acts no more

  /** What the lease sees of an act. */
  function LeaseEvent(s: System, a: Act): Option<L.Event> {
    match a
    case Acquire(pid, reading, duration) =>
      if pid in s.processes then None else Some(L.Event.Acquire(pid, reading, duration))
    case Renew(pid, reading, duration) =>
      if pid in s.processes then Some(L.Heartbeat(s.processes[pid].lease, reading, duration)) else None
    case Release(pid, reading) =>
      if pid in s.processes then Some(L.Event.Release(s.processes[pid].lease, reading)) else None
    case Begin(pid) =>
      if pid in s.processes then Some(L.Event.Begin(pid, s.processes[pid].lease)) else None
    case FirstCheck(reading) => Some(L.Event.FirstCheck(reading))
    case SecondCheck(reading) => Some(L.Event.SecondCheck(reading))
    case Commit(_) => Some(L.Event.Commit)
    case Abort => Some(L.Event.Abort)
  }

  /** The database as one process's writes see it. */
  ghost function Local(s: System, pid: L.Pid): R.Machine
    requires pid in s.processes
  {
    R.Machine(s.store, s.runs, s.processes[pid].phase)
  }

  ghost function Written(s: System, d: L.Db, pid: L.Pid, write: R.Event): Option<System> {
    if pid !in s.processes || write.TakeOver? then None
    else
      match R.Apply(Local(s, pid), write)
      case None => None
      case Some(m) =>
        Some(System(d, m.store, m.runs, s.processes[pid := s.processes[pid].(phase := m.phase)]))
  }

  ghost function Apply(s: System, a: Act): Option<System> {
    match LeaseEvent(s, a)
    case None => None
    case Some(e) =>
      match L.Apply(s.db, e)
      case None => None
      case Some(d) =>
        if a.Commit? then Written(s, d, s.db.open.value.pid, a.write)
        else if a.Acquire? && d.log != s.db.log then
          var process := Process(L.Lease(a.pid, d.row.value.token), R.NoRun);
          Some(s.(db := d, processes := s.processes[a.pid := process]))
        else Some(s.(db := d))
  }

  ghost function Replay(s: System, acts: seq<Act>): Option<System>
    decreases |acts|
  {
    if acts == [] then Some(s)
    else
      match Replay(s, acts[..|acts| - 1])
      case None => None
      case Some(v) => Apply(v, acts[|acts| - 1])
  }

  /** Nobody has the lease yet; the stored row and the runs of the past are arbitrary. */
  ghost predicate Starts(s: System) {
    s.db.log == [] && s.db.open.None? && s.processes == map[] && R.Inv(Single(s))
  }

  // ---------------------------------------------------------------- one run at a time

  /** The run of the process whose lease the row carries. */
  ghost function Current(s: System): R.Phase {
    if s.db.row.Some? && s.db.row.value.owner in s.processes
       && L.Matches(s.db.row, s.processes[s.db.row.value.owner].lease)
    then s.processes[s.db.row.value.owner].phase
    else R.NoRun
  }

  ghost function Single(s: System): R.Machine { R.Machine(s.store, s.runs, Current(s)) }

  /** Every process was issued its lease, and the open transaction is its process's own. */
  ghost predicate Inv(s: System) {
    && L.Inv(s.db)
    && (forall pid :: pid in s.processes ==>
          s.processes[pid].lease.owner == pid && s.db.row.Some?
          && s.processes[pid].lease.token <= s.db.row.value.token)
    && (s.db.open.Some? ==>
          s.db.open.value.pid in s.processes && s.db.open.value.lease == s.processes[s.db.open.value.pid].lease)
  }

  /** What an act adds to the history of runs. */
  ghost function Shows(s: System, a: Act): seq<R.Event>
    requires Apply(s, a).Some?
  {
    if a.Commit? then [a.write]
    else if Apply(s, a).value.db.log != s.db.log then [R.TakeOver]
    else []
  }

  /** The committed log, as events of the runs. */
  ghost function History(s: System, acts: seq<Act>): seq<R.Event>
    requires Replay(s, acts).Some?
    decreases |acts|
  {
    if acts == [] then []
    else
      History(s, acts[..|acts| - 1]) + Shows(Replay(s, acts[..|acts| - 1]).value, acts[|acts| - 1])
  }

  lemma LeaseGrows(d: L.Db, e: L.Event)
    requires L.Apply(d, e).Some?
    ensures var after := L.Apply(d, e).value;
      && (d.row.Some? ==> after.row.Some? && d.row.value.token <= after.row.value.token)
      && (after.log != d.log <==> e.Commit? || (e.Acquire? && after.row != d.row))
  {
    if e.Acquire? && L.AcquireRow(d.row, e.owner, e.reading, e.duration).Some? {
      var taken := L.AcquireRow(d.row, e.owner, e.reading, e.duration);
      assert |L.Apply(d, e).value.log| == |d.log| + 1;
      assert d.row.Some? ==> taken.value.token > d.row.value.token;
    }
    if e.Commit? { assert |L.Apply(d, e).value.log| == |d.log| + 1; }
  }

  lemma StepKeepsInv(s: System, a: Act)
    requires Inv(s) && Apply(s, a).Some?
    ensures Inv(Apply(s, a).value)
  {
    var e := LeaseEvent(s, a).value;
    L.StepKeepsInv(s.db, e);
    LeaseGrows(s.db, e);
  }

  /** Whoever commits is the current process: the fence makes its run the one run. */
  lemma CommitterIsCurrent(s: System, write: R.Event)
    requires Inv(s) && Apply(s, Commit(write)).Some?
    ensures s.db.open.value.pid in s.processes && Single(s) == Local(s, s.db.open.value.pid)
    ensures R.Apply(Single(s), write) == Some(Single(Apply(s, Commit(write)).value))
  {
    var after := Apply(s, Commit(write)).value;
    assert L.Matches(s.db.row, s.db.open.value.lease);
    assert after.db.row == s.db.row;
  }

  lemma TakeoverStartsAfresh(s: System, a: Act)
    requires Inv(s) && Apply(s, a).Some? && a.Acquire? && Apply(s, a).value.db.log != s.db.log
    ensures R.Apply(Single(s), R.TakeOver) == Some(Single(Apply(s, a).value))
  {
    LeaseGrows(s.db, LeaseEvent(s, a).value);
  }

  lemma RestIsUnseen(s: System, a: Act)
    requires Inv(s) && Apply(s, a).Some? && Shows(s, a) == []
    ensures Single(Apply(s, a).value) == Single(s) && Apply(s, a).value.db.log == s.db.log
  {
    LeaseGrows(s.db, LeaseEvent(s, a).value);
  }

  /** Every entry of the log stands for one event: an acquisition for a takeover, a commit for a write. */
  ghost predicate Mirrors(log: seq<L.Entry>, events: seq<R.Event>) {
    |events| == |log| && forall i :: 0 <= i < |events| ==> (log[i].Acquired? <==> events[i].TakeOver?)
  }

  lemma LogStep(s: System, a: Act, events: seq<R.Event>)
    requires Inv(s) && Apply(s, a).Some? && Mirrors(s.db.log, events)
    ensures Mirrors(Apply(s, a).value.db.log, events + Shows(s, a))
  {
    LeaseGrows(s.db, LeaseEvent(s, a).value);
  }

  /** An act adds to the runs what it shows. */
  lemma RunStep(s: System, a: Act, m: R.Machine, events: seq<R.Event>)
    requires Inv(s) && Apply(s, a).Some? && R.Replay(m, events) == Some(Single(s))
    ensures R.Replay(m, events + Shows(s, a)) == Some(Single(Apply(s, a).value))
  {
    if Shows(s, a) == [] {
      RestIsUnseen(s, a);
      assert events + [] == events;
    } else {
      var e := Shows(s, a)[0];
      assert (events + [e])[..|events|] == events;
      if a.Commit? {
        CommitterIsCurrent(s, e);
      } else {
        LeaseGrows(s.db, LeaseEvent(s, a).value);
        TakeoverStartsAfresh(s, a);
      }
    }
  }

  /** Main result: whatever the processes do, with whatever clocks, pauses and deaths, their committed log
      is event by event a history of single runs, and leaves exactly the store and runs they left. */
  lemma {:induction false} CommittedIsRunHistory(s: System, acts: seq<Act>)
    requires Starts(s) && Replay(s, acts).Some?
    ensures var after, events := Replay(s, acts).value, History(s, acts);
      Inv(after) && R.Replay(Single(s), events) == Some(Single(after)) && Mirrors(after.db.log, events)
    decreases |acts|
  {
    if acts != [] {
      var most, a := acts[..|acts| - 1], acts[|acts| - 1];
      CommittedIsRunHistory(s, most);
      StepKeepsInv(Replay(s, most).value, a);
      LogStep(Replay(s, most).value, a, History(s, most));
      RunStep(Replay(s, most).value, a, Single(s), History(s, most));
    }
  }

  /** Main result: over all processes, takeovers and failures, a lead's confirmation names a completed run
      that saw it, with that run's finish time. */
  lemma ConfirmationsAreEarned(s: System, acts: seq<Act>, l: nat)
    requires Starts(s) && Replay(s, acts).Some? && l in Replay(s, acts).value.store.leads
    ensures var after := Replay(s, acts).value; R.ConfirmedWell(after.store.leads[l], l, after.runs)
  {
    CommittedIsRunHistory(s, acts);
    R.ConfirmationsAreEarned(Single(s), History(s, acts), l);
  }
}
