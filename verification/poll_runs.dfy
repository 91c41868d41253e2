/**
 Poll runs: every write belongs to the process that holds the lease, a run is opened before its
 items and closed after them, and only a completed run confirms leads.

 A takeover ends the old process's run, of which nothing more commits; `PollFencing` proves that
 fenced processes can only produce such histories.
 */
module PollRuns {
  import opened Options
  import opened PollStore

  datatype RunState = Pending | Complete | Failed

  /** `saw`: the leads its items were projected onto. */
  datatype Run = Run(state: RunState, finished: Option<int>, saw: set<nat>)

  /** What the lease holder is doing: the keys are the items its open run has seen. */
  datatype Phase = NoRun | InRun(run: nat, keys: set<(nat, nat)>)

  datatype Machine = Machine(store: Store, runs: map<nat, Run>, phase: Phase)

  datatype Event =
    | TakeOver // another process acquires the lease; the old one's open run stays pending
    | BeginRun(run: nat)
    | Upsert(it: Item, newLead: nat, newObservation: nat)
    | CompleteRun(now: int)
    | FailRun(now: int)

  /** `complete_run`: every lead under a seen key is confirmed by this run. */
  function Confirmed(leads: map<nat, Lead>, keys: set<(nat, nat)>, run: nat, now: int): map<nat, Lead> {
    map l | l in leads ::
      if (leads[l].source, leads[l].item) in keys then leads[l].(confirmedRun := Some(run), confirmedAt := now)
      else leads[l]
  }

  ghost function Apply(m: Machine, e: Event): Option<Machine> {
    match e
    case TakeOver => Some(m.(phase := NoRun))
    case BeginRun(run) =>
      if m.phase.NoRun? && run !in m.runs then
        Some(m.(runs := m.runs[run := Run(Pending, None, {})], phase := InRun(run, {})))
      else None
    case Upsert(it, newLead, newObservation) =>
      if m.phase.InRun? && m.phase.run in m.runs && FreshIds(m.store, newLead, newObservation) then
        var run := m.runs[m.phase.run];
        Some(Machine(
          Upserted(m.store, it, newLead, newObservation),
          m.runs[m.phase.run := run.(saw := run.saw + {LeadFor(Locate(m.store, it), newLead)})],
          InRun(m.phase.run, m.phase.keys + {(it.source, it.id)})))
      else None
    case CompleteRun(now) =>
      if m.phase.InRun? && m.phase.run in m.runs then
        Some(Machine(
          m.store.(leads := Confirmed(m.store.leads, m.phase.keys, m.phase.run, now)),
          m.runs[m.phase.run := m.runs[m.phase.run].(state := Complete, finished := Some(now))],
          NoRun))
      else None
    case FailRun(now) =>
      if m.phase.InRun? && m.phase.run in m.runs then
        Some(Machine(
          m.store, m.runs[m.phase.run := m.runs[m.phase.run].(state := Failed, finished := Some(now))], NoRun))
      else None
  }

  // ---------------------------------------------------------------- confirmations

  /** A confirmation names a completed run that saw the lead, and carries that run's finish time. */
  ghost predicate ConfirmedWell(lead: Lead, id: nat, runs: map<nat, Run>) {
    lead.confirmedRun.Some? ==>
      var r := lead.confirmedRun.value;
      r in runs && runs[r].state.Complete? && runs[r].finished == Some(lead.confirmedAt) && id in runs[r].saw
  }

  ghost predicate PhaseValid(m: Machine) {
    m.phase.InRun? ==>
      && m.phase.run in m.runs && m.runs[m.phase.run].state.Pending?
      && forall l :: l in m.store.leads && (m.store.leads[l].source, m.store.leads[l].item) in m.phase.keys ==>
           l in m.runs[m.phase.run].saw
  }

  ghost predicate Inv(m: Machine) {
    && Valid(m.store) && PhaseValid(m)
    && forall l :: l in m.store.leads ==> ConfirmedWell(m.store.leads[l], l, m.runs)
  }

  lemma UpsertKeepsConfirmations(m: Machine, it: Item, newLead: nat, newObservation: nat, l: nat)
    requires Inv(m) && Apply(m, Upsert(it, newLead, newObservation)).Some?
    requires l in Apply(m, Upsert(it, newLead, newObservation)).value.store.leads
    ensures var after := Apply(m, Upsert(it, newLead, newObservation)).value;
      ConfirmedWell(after.store.leads[l], l, after.runs)
  {
    LocatedKey(m.store, it);
    if l in m.store.leads { assert ConfirmedWell(m.store.leads[l], l, m.runs); }
  }

  lemma UpsertKeepsPhase(m: Machine, it: Item, newLead: nat, newObservation: nat)
    requires Inv(m) && Apply(m, Upsert(it, newLead, newObservation)).Some?
    ensures PhaseValid(Apply(m, Upsert(it, newLead, newObservation)).value)
  {
    LocatedKey(m.store, it);
  }

  lemma UpsertKeepsInv(m: Machine, it: Item, newLead: nat, newObservation: nat)
    requires Inv(m) && Apply(m, Upsert(it, newLead, newObservation)).Some?
    ensures Inv(Apply(m, Upsert(it, newLead, newObservation)).value)
  {
    UpsertKeepsValid(m.store, it, newLead, newObservation);
    UpsertKeepsPhase(m, it, newLead, newObservation);
    var after := Apply(m, Upsert(it, newLead, newObservation)).value;
    forall l | l in after.store.leads ensures ConfirmedWell(after.store.leads[l], l, after.runs) {
      UpsertKeepsConfirmations(m, it, newLead, newObservation, l);
    }
  }

  lemma CompleteKeepsInv(m: Machine, now: int)
    requires Inv(m) && Apply(m, CompleteRun(now)).Some?
    ensures Inv(Apply(m, CompleteRun(now)).value)
  {
    var after := Apply(m, CompleteRun(now)).value;
    forall l | l in after.store.leads ensures ConfirmedWell(after.store.leads[l], l, after.runs) {
      assert ConfirmedWell(m.store.leads[l], l, m.runs);
    }
    StillValid(m.store, after.store);
  }

  lemma StillValid(s: Store, t: Store)
    requires Valid(s) && t.observations == s.observations && t.events == s.events && t.leads.Keys == s.leads.Keys
    requires forall l :: l in s.leads ==>
      && t.leads[l].source == s.leads[l].source && t.leads[l].item == s.leads[l].item
      && t.leads[l].event == s.leads[l].event
    ensures Valid(t)
  {
  }

  lemma RunsKeepInv(m: Machine, e: Event)
    requires Inv(m) && Apply(m, e).Some? && (e.BeginRun? || e.FailRun? || e.TakeOver?)
    ensures Inv(Apply(m, e).value)
  {
    var after := Apply(m, e).value;
    forall l | l in after.store.leads ensures ConfirmedWell(after.store.leads[l], l, after.runs) {
      assert ConfirmedWell(m.store.leads[l], l, m.runs);
    }
  }

  lemma StepKeepsInv(m: Machine, e: Event)
    requires Inv(m) && Apply(m, e).Some?
    ensures Inv(Apply(m, e).value)
  {
    match e
    case TakeOver => RunsKeepInv(m, e);
    case BeginRun(_) => RunsKeepInv(m, e);
    case Upsert(it, newLead, newObservation) => UpsertKeepsInv(m, it, newLead, newObservation);
    case CompleteRun(now) => CompleteKeepsInv(m, now);
    case FailRun(_) => RunsKeepInv(m, e);
  }

  // ---------------------------------------------------------------- histories

  ghost function Replay(m: Machine, events: seq<Event>): Option<Machine>
    decreases |events|
  {
    if events == [] then Some(m)
    else
      match Replay(m, events[..|events| - 1])
      case None => None
      case Some(v) => Apply(v, events[|events| - 1])
  }

  lemma {:induction false} PrefixReplays(m: Machine, events: seq<Event>, k: nat)
    requires Replay(m, events).Some? && k <= |events|
    ensures Replay(m, events[..k]).Some?
    decreases |events|
  {
    if k == |events| {
      assert events[..k] == events;
    } else {
      PrefixReplays(m, events[..|events| - 1], k);
      assert events[..|events| - 1][..k] == events[..k];
    }
  }

  /** The machine before event `k`. */
  ghost function At(m: Machine, events: seq<Event>, k: nat): Machine
    requires Replay(m, events).Some? && k <= |events|
  {
    PrefixReplays(m, events, k);
    Replay(m, events[..k]).value
  }

  lemma StepAt(m: Machine, events: seq<Event>, k: nat)
    requires Replay(m, events).Some? && k < |events|
    ensures Apply(At(m, events, k), events[k]) == Some(At(m, events, k + 1))
  {
    PrefixReplays(m, events, k + 1);
    assert events[..k + 1][..k] == events[..k];
  }

  lemma {:induction false} InvAt(m: Machine, events: seq<Event>, k: nat)
    requires Inv(m) && Replay(m, events).Some? && k <= |events|
    ensures Inv(At(m, events, k))
    decreases k
  {
    if k > 0 {
      InvAt(m, events, k - 1);
      StepAt(m, events, k - 1);
      StepKeepsInv(At(m, events, k - 1), events[k - 1]);
    }
  }

  /** Main result: over all runs with failures, crashes and takeovers, a lead's confirmation always names a
      completed run that saw it, stamped with that run's finish time. */
  lemma ConfirmationsAreEarned(m: Machine, events: seq<Event>, l: nat)
    requires Inv(m) && Replay(m, events).Some? && l in Replay(m, events).value.store.leads
    ensures ConfirmedWell(Replay(m, events).value.store.leads[l], l, Replay(m, events).value.runs)
  {
    InvAt(m, events, |events|);
    assert events[..|events|] == events;
  }

  ghost predicate AlertsAt(m: Machine, events: seq<Event>, k: nat, source: nat, item: nat, hash: nat)
    requires Replay(m, events).Some? && k < |events|
  {
    && events[k].Upsert? && KeyOf(events[k].it) == ObservationKey(source, item, hash)
    && Alerts(At(m, events, k).store, events[k].it, events[k].newObservation)
  }

  ghost predicate RekeyedAt(m: Machine, events: seq<Event>, k: nat, source: nat, item: nat)
    requires Replay(m, events).Some? && k < |events|
  {
    events[k].Upsert? && Rekeys(At(m, events, k).store, events[k].it, source, item)
  }

  lemma AlertStep(m: Machine, e: Event)
    requires Inv(m) && Apply(m, e).Some? && e.Upsert? && Alerts(m.store, e.it, e.newObservation)
    ensures OnFile(Apply(m, e).value.store, e.it.source, e.it.id, e.it.hash)
  {
    AlertedIsOnFile(m.store, e.it, e.newLead, e.newObservation);
  }

  lemma OnFileStep(m: Machine, e: Event, source: nat, item: nat, hash: nat)
    requires Inv(m) && Apply(m, e).Some? && OnFile(m.store, source, item, hash)
    requires e.Upsert? ==> !Rekeys(m.store, e.it, source, item)
    ensures OnFile(Apply(m, e).value.store, source, item, hash)
  {
    match e
    case Upsert(it, newLead, newObservation) =>
      OnFileStays(m.store, it, newLead, newObservation, source, item, hash);
    case CompleteRun(now) => SameKeysOnFile(m.store, Apply(m, e).value.store, source, item, hash);
    case _ =>
  }

  lemma {:induction false} StaysOnFile(
    m: Machine, events: seq<Event>, i: nat, k: nat, source: nat, item: nat, hash: nat)
    requires Inv(m) && Replay(m, events).Some? && i < k <= |events|
    requires AlertsAt(m, events, i, source, item, hash)
    requires forall j :: i < j < k ==> !RekeyedAt(m, events, j, source, item)
    ensures OnFile(At(m, events, k).store, source, item, hash)
    decreases k
  {
    InvAt(m, events, k - 1);
    StepAt(m, events, k - 1);
    if k == i + 1 {
      AlertStep(At(m, events, i), events[i]);
    } else {
      StaysOnFile(m, events, i, k - 1, source, item, hash);
      assert !RekeyedAt(m, events, k - 1, source, item);
      OnFileStep(At(m, events, k - 1), events[k - 1], source, item, hash);
    }
  }

  lemma SameKeysOnFile(s: Store, t: Store, source: nat, item: nat, hash: nat)
    requires OnFile(s, source, item, hash) && t.observations == s.observations && t.leads.Keys == s.leads.Keys
    requires forall l :: l in s.leads ==> t.leads[l].source == s.leads[l].source && t.leads[l].item == s.leads[l].item
    ensures OnFile(t, source, item, hash)
  {
    var l :| l in Keyed(s, source, item);
    assert l in Keyed(t, source, item);
  }

  /** Main result: the same payload of the same item alerts a second time only if, in between, the lead
      that held the item's key was re-keyed away. */
  lemma AlertsOnce(m: Machine, events: seq<Event>, i: nat, j: nat, source: nat, item: nat, hash: nat)
    requires Inv(m) && Replay(m, events).Some? && i < j < |events|
    requires AlertsAt(m, events, i, source, item, hash) && AlertsAt(m, events, j, source, item, hash)
    ensures exists k :: i < k < j && RekeyedAt(m, events, k, source, item)
  {
    if forall k :: i < k < j ==> !RekeyedAt(m, events, k, source, item) {
      StaysOnFile(m, events, i, j, source, item, hash);
      InvAt(m, events, j);
      OnFileIsSilent(At(m, events, j).store, events[j].it, events[j].newObservation);
      assert false;
    }
  }
}
