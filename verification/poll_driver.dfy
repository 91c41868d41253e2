/**
 The poll driver: one source after another, each inside its own run, stopping as soon as the
 lease is lost.
 */
module PollDriver {
  import opened Options
  import opened PollStore
  import opened PollRuns

  datatype Ending = Completed | FailedRun | LeaseLost

  /** The stored projection of one item, as the source's statements change the tables. */
  class Tables {
    var leads: map<nat, Lead>
    var observations: map<ObservationKey, Observation>
    var events: map<nat, nat>

    ghost function Contents(): Store
      reads this
    {
      Store(leads, observations, events)
    }

    constructor ()
      ensures Contents() == Store(map[], map[], map[]) && Valid(Contents())
    {
      leads, observations, events := map[], map[], map[];
    }

    /** Which lead the item belongs to, and whether it was adopted under a new item id. */
    method Find(it: Item) returns (f: Found)
      ensures f == Locate(Contents(), it)
    {
      var keyed := set l | l in leads && leads[l].source == it.source && leads[l].item == it.id;
      assert keyed == Keyed(Contents(), it.source, it.id);
      var held := FindLeast(keyed);
      if held.Some? { return Existing(held.value); }
      var drifted := set l | l in leads && it.source == RFP && it.url != 0
        && leads[l].source == it.source && leads[l].url == it.url && leads[l].entity == it.entity;
      assert drifted == Drifted(Contents(), it);
      var old_ := FindLeast(drifted);
      f := if old_.Some? then Adopted(old_.value) else Missing;
    }

    /** The observation of this payload: one made under the adopted lead's old key, the one on file, or
        a new one. */
    method Observe(it: Item, f: Found, lead: nat, newObservation: nat) returns (observation: nat)
      requires f.Adopted? ==> lead == f.lead
      modifies this`observations
      ensures observation == ObservationFor(old(Contents()), it, f, newObservation)
      ensures observations ==
        if Reuses(old(Contents()), it, f) || KeyOf(it) in old(observations) then old(observations)
        else old(observations)[KeyOf(it) := Observation(newObservation, lead)]
    {
      if f.Adopted? {
        var known := set k | k in observations && k.source == it.source && k.hash == it.hash
          && observations[k].lead == lead :: observations[k].id;
        assert known == Reusable(Contents(), it, lead);
        var reused := FindLeast(known);
        if reused.Some? { return reused.value; }
      }
      if KeyOf(it) !in observations {
        observations := observations[KeyOf(it) := Observation(newObservation, lead)];
      }
      observation := observations[KeyOf(it)].id;
    }

    /** `_upsert_lead`. */
    method UpsertLead(it: Item, newLead: nat, newObservation: nat) returns (alert: bool)
      requires newLead !in leads
      modifies this
      ensures Contents() == Upserted(old(Contents()), it, newLead, newObservation)
      ensures alert == Alerts(old(Contents()), it, newObservation)
    {
      ghost var before := Contents();
      var f := Find(it);
      var lead := if f.Missing? then newLead else f.lead;
      var projected := if lead in leads
        then leads[lead].(source := it.source, item := it.id, url := it.url, entity := it.entity)
        else Lead(it.source, it.id, it.url, it.entity, None, None, 0);
      assert projected == Projected(before, lead, it);
      var observation := Observe(it, f, lead, newObservation);
      var created := observation !in events;
      if created { events := events[observation := lead]; }
      leads := leads[lead := if created then projected.(event := Some(observation)) else projected];
      alert := f.Missing? || (created && !it.suppressed);
    }
  }

  lemma FreshAbove(s: Store, newLead: nat, newObservation: nat)
    requires Valid(s) && forall l :: l in s.leads ==> l < newLead
    requires forall e :: e in s.events ==> e < newObservation
    ensures FreshIds(s, newLead, newObservation)
  {
  }

  /** A lead has the item's own key. */
  ghost predicate Stored(s: Store, it: Item) { exists l :: HasKey(s, it, l) }

  /** No lead has the item's key, and none may be the same record under an older one. */
  ghost predicate Unknown(s: Store, it: Item) { forall l :: !HasKey(s, it, l) && !HasDrifted(s, it, l) }

  lemma AlertMeans(s: Store, it: Item, newLead: nat, newObservation: nat)
    requires Valid(s) && FreshIds(s, newLead, newObservation)
    ensures Alerts(s, it, newObservation) ==>
      OnFile(Upserted(s, it, newLead, newObservation), it.source, it.id, it.hash)
    ensures OnFile(s, it.source, it.id, it.hash) ==> !Alerts(s, it, newObservation)
    ensures Stored(s, it) ==>
      (Alerts(s, it, newObservation) <==>
         ObservationKey(it.source, it.id, it.hash) !in s.observations && !it.suppressed)
    ensures Unknown(s, it) ==> Alerts(s, it, newObservation)
  {
    AlertsExactly(s, it, newLead, newObservation);
    if Alerts(s, it, newObservation) { AlertedIsOnFile(s, it, newLead, newObservation); }
    if OnFile(s, it.source, it.id, it.hash) { OnFileIsSilent(s, it, newObservation); }
  }

  /** No confirmation was made or lost: leads on file keep theirs, new ones have none. */
  ghost predicate SameConfirmations(before: map<nat, Lead>, after: map<nat, Lead>) {
    && (forall l :: l in before ==>
          && l in after && after[l].confirmedRun == before[l].confirmedRun
          && after[l].confirmedAt == before[l].confirmedAt)
    && forall l :: l in after && l !in before ==> after[l].confirmedRun.None?
  }

  lemma UpsertConfirmsNothing(s: Store, it: Item, newLead: nat, newObservation: nat)
    requires newLead !in s.leads
    ensures SameConfirmations(s.leads, Upserted(s, it, newLead, newObservation).leads)
  {
    LocatedKey(s, it);
  }

  /** Exactly the leads under these keys were confirmed, by this run. */
  ghost predicate OnlyConfirmed(
    before: map<nat, Lead>, after: map<nat, Lead>, keys: set<(nat, nat)>, run: nat, now: int)
  {
    && before.Keys <= after.Keys
    && forall l :: l in after ==>
         if (after[l].source, after[l].item) in keys then
           after[l].confirmedRun == Some(run) && after[l].confirmedAt == now
         else if l in before then
           after[l].confirmedRun == before[l].confirmedRun && after[l].confirmedAt == before[l].confirmedAt
         else after[l].confirmedRun.None?
  }

  function KeysOf(items: seq<Item>): set<(nat, nat)> { set i | 0 <= i < |items| :: (items[i].source, items[i].id) }

  lemma SameTwice(a: map<nat, Lead>, b: map<nat, Lead>, c: map<nat, Lead>)
    requires SameConfirmations(a, b) && SameConfirmations(b, c)
    ensures SameConfirmations(a, c)
  {
  }

  lemma ThenConfirmed(before: map<nat, Lead>, during: map<nat, Lead>, keys: set<(nat, nat)>, run: nat, now: int)
    requires SameConfirmations(before, during)
    ensures OnlyConfirmed(before, Confirmed(during, keys, run, now), keys, run, now)
  {
  }

  lemma KeysMore(items: seq<Item>, i: nat)
    requires i < |items|
    ensures KeysOf(items[..i + 1]) == KeysOf(items[..i]) + {(items[i].source, items[i].id)}
  {
    forall key ensures key in KeysOf(items[..i + 1]) <==> key in KeysOf(items[..i]) + {(items[i].source, items[i].id)} {
      if key in KeysOf(items[..i]) {
        var j :| 0 <= j < i && key == (items[..i][j].source, items[..i][j].id);
        assert items[..i + 1][j] == items[..i][j];
      }
      if key in KeysOf(items[..i + 1]) {
        var j :| 0 <= j < i + 1 && key == (items[..i + 1][j].source, items[..i + 1][j].id);
        if j < i { assert items[..i][j] == items[..i + 1][j]; }
      }
      assert items[..i + 1][i] == items[i];
    }
  }

  method Above(s: set<nat>) returns (n: nat)
    ensures forall x :: x in s ==> x < n
  {
    n := 1;
    var todo := s;
    while todo != {}
      invariant todo <= s && forall x :: x in s && x !in todo ==> x < n
      decreases todo
    {
      var x :| x in todo;
      if x >= n { n := x + 1; }
      todo := todo - {x};
    }
  }

  ghost predicate Weighed(m: Machine) { true }

  /** `good` is `Inv`; the trigger keeps its definition out of proofs that only pass it along. */
  ghost predicate Judges(good: Machine -> bool) {
    forall m: Machine {:trigger Weighed(m)} :: good(m) <==> Inv(m)
  }

  lemma Opened(good: Machine -> bool, m: Machine)
    requires Judges(good) && good(m)
    ensures Inv(m)
  {
    assert Weighed(m);
  }

  lemma Judged(good: Machine -> bool, m: Machine)
    requires Judges(good) && Inv(m)
    ensures good(m)
  {
    assert Weighed(m);
  }

  lemma StepJudged(good: Machine -> bool, m: Machine, e: Event)
    requires Judges(good) && good(m) && Apply(m, e).Some?
    ensures good(Apply(m, e).value)
  {
    Opened(good, m);
    StepKeepsInv(m, e);
    Judged(good, Apply(m, e).value);
  }

  /** Ids above all others can be used in the open run. */
  lemma FreshForRun(good: Machine -> bool, m: Machine, newLead: nat, newObservation: nat)
    requires Judges(good) && good(m) && m.phase.InRun?
    requires forall l :: l in m.store.leads ==> l < newLead
    requires forall e :: e in m.store.events ==> e < newObservation
    ensures Valid(m.store) && FreshIds(m.store, newLead, newObservation) && m.phase.run in m.runs
  {
    Opened(good, m);
    FreshAbove(m.store, newLead, newObservation);
  }

  ghost function InvView(): Machine -> bool { m => Inv(m) }

  lemma FreshInv(s: Store)
    requires Valid(s) && forall l :: l in s.leads ==> s.leads[l].confirmedRun.None?
    ensures Judges(InvView()) && InvView()(Machine(s, map[], NoRun))
  {
  }

  /** A poller with the lease. Other processes act only by taking the lease away. */
  class Poller {
    const tables: Tables
    var runs: map<nat, Run>
    ghost const good: Machine -> bool // `Inv`
    ghost const origin: Machine
    ghost var machine: Machine
    ghost var events: seq<Event>

    ghost predicate Linked()
      reads this, tables
    {
      && Judges(good) && good(origin) && good(machine) && Replay(origin, events) == Some(machine)
      && machine.store == tables.Contents() && machine.runs == runs
    }

    constructor (tables: Tables)
      requires Valid(tables.Contents()) && forall l :: l in tables.leads ==> tables.leads[l].confirmedRun.None?
      ensures Linked() && this.tables == tables && machine.phase.NoRun? && events == []
    {
      this.tables, runs, good := tables, map[], InvView();
      FreshInv(tables.Contents());
      machine := Machine(tables.Contents(), map[], NoRun);
      origin := Machine(tables.Contents(), map[], NoRun);
      events := [];
    }

    ghost method Commit(e: Event)
      requires Judges(good) && good(machine) && Replay(origin, events) == Some(machine) && Apply(machine, e).Some?
      modifies this`machine, this`events
      ensures good(machine) && Replay(origin, events) == Some(machine)
      ensures events == old(events) + [e] && Some(machine) == Apply(old(machine), e)
    {
      assert (events + [e])[..|events|] == events;
      StepJudged(good, machine, e);
      machine := Apply(machine, e).value;
      events := events + [e];
    }

    /** `begin_run`: a pending row before any item is processed. */
    method BeginSource() returns (run: nat)
      requires Linked() && machine.phase.NoRun?
      modifies this
      ensures Linked() && events == old(events) + [BeginRun(run)] && machine.phase == InRun(run, {})
    {
      run := Above(runs.Keys);
      runs := runs[run := Run(Pending, None, {})];
      Commit(BeginRun(run));
    }

    /** `upsert_lead` inside the open run. */
    method ProjectItem(run: nat, it: Item) returns (alert: bool)
      requires Linked() && machine.phase.InRun? && machine.phase.run == run
      modifies this, tables
      ensures Linked() && |events| == |old(events)| + 1 && old(events) <= events
      ensures events[|old(events)|].Upsert? && events[|old(events)|].it == it
      ensures machine.phase == InRun(run, old(machine).phase.keys + {(it.source, it.id)})
      ensures alert ==> OnFile(tables.Contents(), it.source, it.id, it.hash)
      ensures OnFile(old(tables.Contents()), it.source, it.id, it.hash) ==> !alert
      ensures Stored(old(tables.Contents()), it) ==>
        (alert <==> ObservationKey(it.source, it.id, it.hash) !in old(tables.observations) && !it.suppressed)
      ensures Unknown(old(tables.Contents()), it) ==> alert
      ensures SameConfirmations(old(tables.leads), tables.leads)
    {
      var newLead := Above(tables.leads.Keys);
      var newObservation := Above(tables.events.Keys);
      ghost var before := tables.Contents();
      FreshForRun(good, machine, newLead, newObservation);
      var f := tables.Find(it);
      alert := tables.UpsertLead(it, newLead, newObservation);
      runs := runs[run := runs[run].(saw := runs[run].saw + {if f.Missing? then newLead else f.lead})];
      AlertMeans(before, it, newLead, newObservation);
      UpsertConfirmsNothing(before, it, newLead, newObservation);
      Commit(Upsert(it, newLead, newObservation));
    }

    /** `complete_run`: the run is marked complete and confirms exactly what it saw, in one transaction. */
    method Complete(run: nat, keys: set<(nat, nat)>, now: int)
      requires Linked() && machine.phase == InRun(run, keys)
      modifies this, tables
      ensures Linked() && events == old(events) + [CompleteRun(now)] && machine.phase.NoRun?
      ensures run in runs && runs[run].state.Complete? && runs[run].finished == Some(now)
      ensures tables.leads == Confirmed(old(tables.leads), keys, run, now)
    {
      Opened(good, machine);
      runs := runs[run := runs[run].(state := RunState.Complete, finished := Some(now))];
      tables.leads := Confirmed(tables.leads, keys, run, now);
      Commit(CompleteRun(now));
    }

    /** `fail_run`: never confirms anything. */
    method Fail(run: nat, now: int)
      requires Linked() && machine.phase.InRun? && machine.phase.run == run
      modifies this
      ensures Linked() && events == old(events) + [FailRun(now)] && machine.phase.NoRun?
      ensures run in runs && runs[run].state.Failed?
    {
      Opened(good, machine);
      runs := runs[run := runs[run].(state := RunState.Failed, finished := Some(now))];
      Commit(FailRun(now));
    }

    ghost method LoseLease()
      requires Linked()
      modifies this`machine, this`events
      ensures Linked() && events == old(events) + [TakeOver] && machine.phase.NoRun?
    {
      Commit(TakeOver);
    }

    /** One source: open a run, project its items, and complete or fail the run. Every step first checks
        the lease; one that finds it lost commits nothing more, and the run stays pending. */
    method PollSource(items: seq<Item>, now: int, mayLose: bool, mayRaise: bool) returns (ending: Ending, run: nat)
      requires Linked() && machine.phase.NoRun?
      modifies this, tables
      ensures Linked() && old(events) <= events && machine.phase.NoRun?
      ensures ending.Completed? ==> run in runs && runs[run].state.Complete? && runs[run].finished == Some(now)
      ensures ending.Completed? ==> OnlyConfirmed(old(tables.leads), tables.leads, KeysOf(items), run, now)
      ensures !ending.Completed? ==> SameConfirmations(old(tables.leads), tables.leads)
      ensures ending.FailedRun? ==> mayRaise && run in runs && runs[run].state.Failed?
      ensures ending.LeaseLost? ==> mayLose && machine.phase.NoRun?
    {
      run := 0;
      var lost: bool := *;
      if mayLose && lost { LoseLease(); return LeaseLost, run; }
      run := BeginSource();
      var keys: set<(nat, nat)> := {};
      for i := 0 to |items|
        invariant Linked() && old(events) <= events && machine.phase == InRun(run, keys)
        invariant keys == KeysOf(items[..i]) && SameConfirmations(old(tables.leads), tables.leads)
      {
        lost := *;
        if mayLose && lost { LoseLease(); return LeaseLost, run; }
        var raises: bool := *;
        if mayRaise && raises { Fail(run, now); return FailedRun, run; }
        ghost var before := tables.leads;
        var alert := ProjectItem(run, items[i]);
        SameTwice(old(tables.leads), before, tables.leads);
        KeysMore(items, i);
        keys := keys + {(items[i].source, items[i].id)};
      }
      assert items[..|items|] == items;
      lost := *;
      if mayLose && lost { LoseLease(); return LeaseLost, run; }
      ThenConfirmed(old(tables.leads), tables.leads, keys, run, now);
      Complete(run, keys, now);
      ending := Completed;
    }
  }
}
