/**
 Projecting polled source items into leads, observations and events: one item either finds its
 lead, adopts the lead it was stored under before its id changed shape, or becomes a new lead.

 Texts stand as numbers; 0 is the empty text. An observation has at most one event, so an event
 is named by its observation.
 */
module PollStore {
  import opened Options

  /** Sources whose URL names exactly one record. */
  const RFP := 1

  datatype Item = Item(source: nat, id: nat, url: nat, entity: nat, hash: nat, suppressed: bool)

  datatype Lead = Lead(
    source: nat, item: nat, url: nat, entity: nat, event: Option<nat>, confirmedRun: Option<nat>, confirmedAt: int)

  datatype ObservationKey = ObservationKey(source: nat, item: nat, hash: nat)
  datatype Observation = Observation(id: nat, lead: nat)

  datatype Store = Store(
    leads: map<nat, Lead>, observations: map<ObservationKey, Observation>, events: map<nat, nat>)

  // ---------------------------------------------------------------- lookups

  /** The row of lowest id, as `ORDER BY id LIMIT 1` picks it. */
  ghost function Least(s: set<nat>): (r: Option<nat>)
    ensures r.None? <==> s == {}
    ensures r.Some? ==> r.value in s && forall y :: y in s ==> r.value <= y
  {
    if s == {} then None
    else
      var x :| x in s;
      var rest := Least(s - {x});
      assert forall y :: y in s ==> y == x || y in s - {x};
      if rest.None? || x < rest.value then Some(x) else rest
  }

  method FindLeast(s: set<nat>) returns (r: Option<nat>)
    ensures r == Least(s)
  {
    if s == {} { return None; }
    var best :| best in s;
    var todo := s - {best};
    while todo != {}
      invariant best in s && todo <= s
      invariant forall y :: y in s && y !in todo ==> best <= y
      decreases todo
    {
      var y :| y in todo;
      if y < best { best := y; }
      todo := todo - {y};
    }
    r := Some(best);
  }

  function Keyed(s: Store, source: nat, item: nat): set<nat> {
    set l | l in s.leads && s.leads[l].source == source && s.leads[l].item == item
  }

  /** Leads the same record may have been stored under before its item id changed shape. */
  function Drifted(s: Store, it: Item): set<nat> {
    set l | l in s.leads && it.source == RFP && it.url != 0
      && s.leads[l].source == it.source && s.leads[l].url == it.url && s.leads[l].entity == it.entity
  }

  /** Observations of this payload already tied to a lead, whatever item id they were made under. */
  function Reusable(s: Store, it: Item, lead: nat): set<nat> {
    set k | k in s.observations && k.source == it.source && k.hash == it.hash && s.observations[k].lead == lead
      :: s.observations[k].id
  }

  function KeyOf(it: Item): ObservationKey { ObservationKey(it.source, it.id, it.hash) }

  // ---------------------------------------------------------------- one item

  /** How an item found its lead. */
  datatype Found = Existing(lead: nat) | Adopted(lead: nat) | Missing

  ghost function Locate(s: Store, it: Item): Found {
    match Least(Keyed(s, it.source, it.id))
    case Some(l) => Existing(l)
    case None =>
      match Least(Drifted(s, it))
      case Some(l) => Adopted(l)
      case None => Missing
  }

  ghost function LeadFor(f: Found, newLead: nat): nat { if f.Missing? then newLead else f.lead }

  /** The projection of the item's columns onto its lead. */
  function Projected(s: Store, lead: nat, it: Item): Lead {
    if lead in s.leads then
      s.leads[lead].(source := it.source, item := it.id, url := it.url, entity := it.entity)
    else Lead(it.source, it.id, it.url, it.entity, None, None, 0)
  }

  ghost function ObservationFor(s: Store, it: Item, f: Found, newObservation: nat): nat {
    var reused := if f.Adopted? then Least(Reusable(s, it, f.lead)) else None;
    if reused.Some? then reused.value
    else if KeyOf(it) in s.observations then s.observations[KeyOf(it)].id
    else newObservation
  }

  ghost predicate Reuses(s: Store, it: Item, f: Found) { f.Adopted? && Least(Reusable(s, it, f.lead)).Some? }

  /** `_upsert_lead`: the new tables. */
  ghost function Upserted(s: Store, it: Item, newLead: nat, newObservation: nat): Store {
    var f := Locate(s, it);
    var lead := LeadFor(f, newLead);
    var observation := ObservationFor(s, it, f, newObservation);
    var projected := Projected(s, lead, it);
    var created := observation !in s.events;
    Store(
      s.leads[lead := if created then projected.(event := Some(observation)) else projected],
      if Reuses(s, it, f) || KeyOf(it) in s.observations then s.observations
      else s.observations[KeyOf(it) := Observation(newObservation, lead)],
      if created then s.events[observation := lead] else s.events)
  }

  /** And what it returns: true alerts the channel. */
  ghost function Alerts(s: Store, it: Item, newObservation: nat): bool {
    var f := Locate(s, it);
    f.Missing? || (ObservationFor(s, it, f, newObservation) !in s.events && !it.suppressed)
  }

  // ---------------------------------------------------------------- the invariant

  ghost predicate KeysUnique(s: Store) {
    forall l, m | l in s.leads && m in s.leads ::
      s.leads[l].source == s.leads[m].source && s.leads[l].item == s.leads[m].item ==> l == m
  }

  ghost predicate ObservationsValid(s: Store) {
    && (forall j, k | j in s.observations && k in s.observations ::
          s.observations[j].id == s.observations[k].id ==> j == k)
    && (forall k :: k in s.observations ==> s.observations[k].id in s.events)
  }

  ghost predicate EventsValid(s: Store) {
    && (forall e :: e in s.events ==> s.events[e] in s.leads)
    && (forall l :: l in s.leads && s.leads[l].event.Some? ==>
          s.leads[l].event.value in s.events && s.events[s.leads[l].event.value] == l)
  }

  ghost predicate Valid(s: Store) { KeysUnique(s) && ObservationsValid(s) && EventsValid(s) }

  ghost predicate FreshIds(s: Store, newLead: nat, newObservation: nat) {
    && newLead !in s.leads && newObservation !in s.events
    && forall k :: k in s.observations ==> s.observations[k].id != newObservation
  }

  lemma KeysKept(s: Store, it: Item, newLead: nat, newObservation: nat)
    requires KeysUnique(s) && newLead !in s.leads
    ensures KeysUnique(Upserted(s, it, newLead, newObservation))
  {
    LocatedKey(s, it);
  }

  lemma ReusedHasEvent(s: Store, it: Item, f: Found)
    requires ObservationsValid(s)
    ensures Reuses(s, it, f) ==> Least(Reusable(s, it, f.lead)).value in s.events
  {
    if Reuses(s, it, f) {
      var o := Least(Reusable(s, it, f.lead)).value;
      var k :| k in s.observations && s.observations[k].id == o;
    }
  }

  lemma ObservationsKept(s: Store, it: Item, newLead: nat, newObservation: nat)
    requires ObservationsValid(s) && FreshIds(s, newLead, newObservation)
    ensures ObservationsValid(Upserted(s, it, newLead, newObservation))
  {
    ReusedHasEvent(s, it, Locate(s, it));
  }

  lemma EventsKept(s: Store, it: Item, newLead: nat, newObservation: nat)
    requires EventsValid(s) && FreshIds(s, newLead, newObservation)
    ensures EventsValid(Upserted(s, it, newLead, newObservation))
  {
    LocatedKey(s, it);
  }

  /** Main result: every upsert keeps the unique keys, gives every observation its event, and the current
      event of a lead is always that lead's own. */
  lemma UpsertKeepsValid(s: Store, it: Item, newLead: nat, newObservation: nat)
    requires Valid(s) && FreshIds(s, newLead, newObservation)
    ensures Valid(Upserted(s, it, newLead, newObservation))
  {
    KeysKept(s, it, newLead, newObservation);
    ObservationsKept(s, it, newLead, newObservation);
    EventsKept(s, it, newLead, newObservation);
  }

  lemma LocatedKey(s: Store, it: Item)
    ensures var f := Locate(s, it);
      && (f.Existing? ==> f.lead in Keyed(s, it.source, it.id))
      && (!f.Existing? ==> forall l :: l in s.leads ==> !(s.leads[l].source == it.source && s.leads[l].item == it.id))
      && (f.Adopted? ==> f.lead in s.leads && s.leads[f.lead].source == it.source)
  {
    if Keyed(s, it.source, it.id) == {} {
      forall l | l in s.leads ensures !(s.leads[l].source == it.source && s.leads[l].item == it.id) {
        assert l !in Keyed(s, it.source, it.id);
      }
    }
  }

  // ---------------------------------------------------------------- one alert per payload

  /** This payload of this item is on file, with its lead under the item's own key. */
  ghost predicate OnFile(s: Store, source: nat, item: nat, hash: nat) {
    && Keyed(s, source, item) != {}
    && ObservationKey(source, item, hash) in s.observations
  }

  lemma AlertedIsOnFile(s: Store, it: Item, newLead: nat, newObservation: nat)
    requires Valid(s) && FreshIds(s, newLead, newObservation) && Alerts(s, it, newObservation)
    ensures OnFile(Upserted(s, it, newLead, newObservation), it.source, it.id, it.hash)
  {
    var f := Locate(s, it);
    var after := Upserted(s, it, newLead, newObservation);
    assert LeadFor(f, newLead) in Keyed(after, it.source, it.id);
    ReusedHasEvent(s, it, f);
  }

  lemma OnFileIsSilent(s: Store, it: Item, newObservation: nat)
    requires Valid(s) && OnFile(s, it.source, it.id, it.hash)
    ensures !Alerts(s, it, newObservation)
  {
  }

  /** The upsert moves the lead that held this key to another one. */
  ghost predicate Rekeys(s: Store, it: Item, source: nat, item: nat) {
    var f := Locate(s, it);
    f.Adopted? && f.lead in s.leads && s.leads[f.lead].source == source && s.leads[f.lead].item == item
  }

  lemma OnFileStays(s: Store, it: Item, newLead: nat, newObservation: nat, source: nat, item: nat, hash: nat)
    requires Valid(s) && FreshIds(s, newLead, newObservation) && OnFile(s, source, item, hash)
    requires !Rekeys(s, it, source, item)
    ensures OnFile(Upserted(s, it, newLead, newObservation), source, item, hash)
  {
    LocatedKey(s, it);
    var l :| l in Keyed(s, source, item);
    assert l in Keyed(Upserted(s, it, newLead, newObservation), source, item);
  }

  // ---------------------------------------------------------------- exactly when an item alerts

  /** A lead of the store has the item's own key. */
  ghost predicate HasKey(s: Store, it: Item, l: nat) {
    l in s.leads && s.leads[l].source == it.source && s.leads[l].item == it.id
  }

  /** A lead the same record may have been stored under: same URL, same organization, in the one source whose
      URLs name records. */
  ghost predicate HasDrifted(s: Store, it: Item, l: nat) {
    && it.source == 1 && it.url != 0
    && l in s.leads && s.leads[l].source == 1 && s.leads[l].url == it.url && s.leads[l].entity == it.entity
  }

  /** The lead that is adopted: the oldest drifted one, when no lead has the item's own key. */
  ghost predicate Adoptable(s: Store, it: Item, a: nat) {
    (forall l :: !HasKey(s, it, l)) && HasDrifted(s, it, a) && forall l :: HasDrifted(s, it, l) ==> a <= l
  }

  /** The lead an item is projected onto. */
  lemma LocatedOnColumns(s: Store, it: Item)
    requires KeysUnique(s)
    ensures var f := Locate(s, it);
      && (f.Existing? <==> exists l :: HasKey(s, it, l))
      && (f.Existing? ==> HasKey(s, it, f.lead))
      && (f.Adopted? <==> (forall l :: !HasKey(s, it, l)) && exists l :: HasDrifted(s, it, l))
      && (f.Adopted? ==> Adoptable(s, it, f.lead))
  {
    forall l ensures HasKey(s, it, l) <==> l in Keyed(s, it.source, it.id) {}
    forall l ensures HasDrifted(s, it, l) <==> l in Drifted(s, it) {}
    if exists l :: HasKey(s, it, l) {
      var l :| HasKey(s, it, l);
      assert l in Keyed(s, it.source, it.id);
    }
    if exists l :: HasDrifted(s, it, l) {
      var l :| HasDrifted(s, it, l);
      assert l in Drifted(s, it);
    }
  }

  /** This payload was observed before, under any id, and tied to this lead. */
  ghost predicate SeenFor(s: Store, it: Item, l: nat) {
    exists k :: k in s.observations && k.source == it.source && k.hash == it.hash && s.observations[k].lead == l
  }

  lemma SeenOnColumns(s: Store, it: Item, l: nat)
    ensures Reusable(s, it, l) != {} <==> SeenFor(s, it, l)
  {
    if SeenFor(s, it, l) {
      var k :| k in s.observations && k.source == it.source && k.hash == it.hash && s.observations[k].lead == l;
      assert s.observations[k].id in Reusable(s, it, l);
    }
    if Reusable(s, it, l) != {} {
      var o :| o in Reusable(s, it, l);
    }
  }

  /** Main result, on the tables as they stand: an item with a lead under its own key alerts exactly if its
      payload is new under that key and it is not suppressed; one that is neither stored nor drifted always
      alerts; one whose lead is adopted alerts exactly if its payload was seen neither for that lead nor under
      its new key, and it is not suppressed. */
  lemma AlertsExactly(s: Store, it: Item, newLead: nat, newObservation: nat)
    requires Valid(s) && FreshIds(s, newLead, newObservation)
    ensures (exists l :: HasKey(s, it, l)) ==>
      (Alerts(s, it, newObservation) <==>
         ObservationKey(it.source, it.id, it.hash) !in s.observations && !it.suppressed)
    ensures (forall l :: !HasKey(s, it, l) && !HasDrifted(s, it, l)) ==> Alerts(s, it, newObservation)
    ensures forall a :: Adoptable(s, it, a) ==>
      (Alerts(s, it, newObservation) <==>
         !SeenFor(s, it, a) && ObservationKey(it.source, it.id, it.hash) !in s.observations && !it.suppressed)
  {
    var f := Locate(s, it);
    LocatedOnColumns(s, it);
    ReusedHasEvent(s, it, f);
    if f.Adopted? { SeenOnColumns(s, it, f.lead); }
  }

  // ---------------------------------------------------------------- what an item leaves behind

  /** The lead of the item has the item's columns and keeps its confirmation; no other lead changes. */
  ghost predicate LeadProjected(s: Store, it: Item, after: Store, l: nat) {
    && HasKey(after, it, l) && after.leads[l].url == it.url && after.leads[l].entity == it.entity
    && after.leads.Keys == s.leads.Keys + {l}
    && (forall m :: m in s.leads && m != l ==> after.leads[m] == s.leads[m])
    && (if l in s.leads
        then after.leads[l].confirmedRun == s.leads[l].confirmedRun
             && after.leads[l].confirmedAt == s.leads[l].confirmedAt
        else after.leads[l].confirmedRun.None?)
  }

  /** Main result: an item is projected onto the lead with its key, else onto the oldest drifted one, else
      onto a new one. */
  lemma LeadOnColumns(s: Store, it: Item, newLead: nat, newObservation: nat)
    requires Valid(s) && FreshIds(s, newLead, newObservation)
    ensures var after := Upserted(s, it, newLead, newObservation);
      && (forall l :: HasKey(s, it, l) || Adoptable(s, it, l) ==> LeadProjected(s, it, after, l))
      && ((forall l :: !HasKey(s, it, l) && !HasDrifted(s, it, l)) ==> LeadProjected(s, it, after, newLead))
  {
    LocatedOnColumns(s, it);
    LocatedKey(s, it);
  }

  /** What was observed and what happened is never rewritten. */
  lemma NothingIsRewritten(s: Store, it: Item, newLead: nat, newObservation: nat)
    requires Valid(s) && FreshIds(s, newLead, newObservation)
    ensures var after := Upserted(s, it, newLead, newObservation);
      && (forall k :: k in s.observations ==> k in after.observations && after.observations[k] == s.observations[k])
      && (forall e :: e in s.events ==> e in after.events && after.events[e] == s.events[e])
  {
  }

  /** Main result: an item adds an observation and an event exactly if its payload is new to it; the event is
      then the current one of its lead. */
  lemma EventOnColumns(s: Store, it: Item, newLead: nat, newObservation: nat)
    requires Valid(s) && FreshIds(s, newLead, newObservation)
    ensures var after := Upserted(s, it, newLead, newObservation);
      var seen := KeyOf(it) in s.observations || exists a :: Adoptable(s, it, a) && SeenFor(s, it, a);
      if seen then after.events == s.events && after.observations == s.observations
      else
        after.events.Keys == s.events.Keys + {newObservation}
        && after.observations.Keys == s.observations.Keys + {ObservationKey(it.source, it.id, it.hash)}
        && HasKey(after, it, after.events[newObservation])
        && after.leads[after.events[newObservation]].event == Some(newObservation)
  {
    var f := Locate(s, it);
    LocatedOnColumns(s, it);
    ReusedHasEvent(s, it, f);
    if f.Adopted? { SeenOnColumns(s, it, f.lead); }
  }
}
