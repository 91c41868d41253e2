/**
 Reserve-before-send delivery: any number of concurrent, crashing ticks compete for a
 channel's daily slot and for an award, over one database, and make at most one Slack call each.

 Every committed transaction and every act of Slack is one event. A tick reads the clock once,
 at its start; `date` is the Pacific date of that reading.
 */
module Delivery {
  import opened Options

  type Channel = nat
  type Award = nat // the stable award key
  type Snapshot = nat
  type Date = int
  type TickId = nat

  datatype SlotKey = Rich(channel: Channel, award: Award) | FollowUp(id: nat)
  datatype RowState = Sending | Delivered | Ambiguous | Rejected | Unrenderable
  datatype Row = Row(state: RowState, snapshot: Snapshot)

  type Slots = map<(Channel, Date), SlotKey>
  type Outbox = map<(Channel, Award), Row>

  // ---------------------------------------------------------------- the two tables

  /** `reserve_daily_slot`: INSERT OR IGNORE under PRIMARY KEY (audience, local_date) and UNIQUE
      (delivery_key). */
  predicate SlotFree(slots: Slots, channel: Channel, date: Date, key: SlotKey) {
    (channel, date) !in slots && key !in slots.Values
  }

  /** `release_daily_slot`: DELETE by key. */
  function WithoutSlot(slots: Slots, key: SlotKey): Slots {
    map k | k in slots && slots[k] != key :: slots[k]
  }

  // ---------------------------------------------------------------- ticks

  datatype Reply = Posted | RateLimited | SystemicRefusal | ContentRefusal | OtherRefusal | NoAnswer

  /** What Slack did with the tick's call. An open call may still land at any time. */
  datatype Call = Unsent | Open | Landed(on: Date) | Refused

  datatype Point =
    | Rendered // about to reserve
    | Unrendered // rendering failed
    | QuarantineHeld
    | SlotHeld
    | Outrun // the award turned out to be reserved
    | BothHeld
    | Calling
    | Answered(reply: Reply)
    | RowReleased
    | Done(slot: bool, row: bool)

  datatype Tick = Tick(
    channel: Channel, date: Date, award: Award, snapshot: Snapshot, point: Point, call: Call, alive: bool)

  datatype World = World(slots: Slots, outbox: Outbox, ticks: map<TickId, Tick>)

  datatype Event =
    | Begin(t: TickId, channel: Channel, date: Date, award: Award, snapshot: Snapshot, renders: bool)
    | ReserveQuarantine(t: TickId)
    | FinishQuarantine(t: TickId)
    | ReserveSlot(t: TickId)
    | ReserveRow(t: TickId)
    | DropSlot(t: TickId)
    | NoClient(t: TickId)
    | Send(t: TickId)
    | Answer(t: TickId, reply: Reply)
    | ReleaseRow(t: TickId)
    | ReleaseSlot(t: TickId)
    | FinishRow(t: TickId)
    | Die(t: TickId)
    | Land(t: TickId, on: Date)
    | Refuse(t: TickId)
    | FollowUpReserve(channel: Channel, date: Date, id: nat)
    | FollowUpRelease(id: nat)

  predicate HoldsSlot(k: Tick) {
    match k.point
    case SlotHeld => true
    case Outrun => true
    case BothHeld => true
    case Calling => true
    case Answered(_) => true
    case RowReleased => true
    case Done(slot, _) => slot
    case _ => false
  }

  predicate HoldsRow(k: Tick) {
    match k.point
    case QuarantineHeld => true
    case BothHeld => true
    case Calling => true
    case Answered(_) => true
    case Done(_, row) => row
    case _ => false
  }

  /** The message has landed, or nothing rules out that it will. */
  predicate MayLand(k: Tick) { k.call.Open? || k.call.Landed? }

  predicate Explains(call: Call, reply: Reply) {
    match reply
    case Posted => call.Landed?
    case NoAnswer => true
    case _ => call.Refused?
  }

  predicate Releases(reply: Reply) { reply.RateLimited? || reply.SystemicRefusal? || reply.OtherRefusal? }

  function StateAfter(reply: Reply): RowState {
    match reply
    case Posted => Delivered
    case ContentRefusal => Rejected
    case _ => Ambiguous
  }

  function SlotKeyOf(k: Tick): SlotKey { Rich(k.channel, k.award) }

  function RowKeyOf(k: Tick): (Channel, Award) { (k.channel, k.award) }

  function Moved(w: World, t: TickId, p: Point): World
    requires t in w.ticks
  {
    w.(ticks := w.ticks[t := w.ticks[t].(point := p)])
  }

  /** The next database step of a living tick. */
  function Act(w: World, t: TickId, k: Tick, e: Event): Option<World>
    requires t in w.ticks && w.ticks[t] == k
  {
    match e
    case ReserveQuarantine(_) =>
      if !k.point.Unrendered? then None
      else if RowKeyOf(k) in w.outbox then Some(Moved(w, t, Done(false, false)))
      else Some(Moved(w.(outbox := w.outbox[RowKeyOf(k) := Row(Sending, k.snapshot)]), t, QuarantineHeld))
    case FinishQuarantine(_) =>
      if !k.point.QuarantineHeld? then None
      else Some(Moved(w.(outbox := Finished(w.outbox, RowKeyOf(k), Unrenderable)), t, Done(false, true)))
    case ReserveSlot(_) =>
      if !k.point.Rendered? then None
      else if !SlotFree(w.slots, k.channel, k.date, SlotKeyOf(k)) then Some(Moved(w, t, Done(false, false)))
      else Some(Moved(w.(slots := w.slots[(k.channel, k.date) := SlotKeyOf(k)]), t, SlotHeld))
    case ReserveRow(_) =>
      if !k.point.SlotHeld? then None
      else if RowKeyOf(k) in w.outbox then Some(Moved(w, t, Outrun))
      else Some(Moved(w.(outbox := w.outbox[RowKeyOf(k) := Row(Sending, k.snapshot)]), t, BothHeld))
    case DropSlot(_) =>
      if !k.point.Outrun? then None
      else Some(Moved(w.(slots := WithoutSlot(w.slots, SlotKeyOf(k))), t, Done(false, false)))
    case NoClient(_) =>
      if !k.point.BothHeld? then None
      else Some(Moved(w.(outbox := Finished(w.outbox, RowKeyOf(k), Ambiguous)), t, Done(true, true)))
    case Send(_) =>
      if !k.point.BothHeld? then None
      else Some(w.(ticks := w.ticks[t := k.(point := Calling, call := Open)]))
    case Answer(_, reply) =>
      if !k.point.Calling? || !Explains(k.call, reply) then None else Some(Moved(w, t, Answered(reply)))
    case ReleaseRow(_) =>
      if !k.point.Answered? || !Releases(k.point.reply) then None
      else Some(Moved(w.(outbox := w.outbox - {RowKeyOf(k)}), t, RowReleased))
    case ReleaseSlot(_) =>
      if !k.point.RowReleased? then None
      else Some(Moved(w.(slots := WithoutSlot(w.slots, SlotKeyOf(k))), t, Done(false, false)))
    case FinishRow(_) =>
      if !k.point.Answered? || Releases(k.point.reply) then None
      else Some(Moved(w.(outbox := Finished(w.outbox, RowKeyOf(k), StateAfter(k.point.reply))), t, Done(true, true)))
    case Die(_) => Some(w.(ticks := w.ticks[t := k.(alive := false)]))
    case _ => None
  }

  /** `finish_notification`: UPDATE by key. */
  function Finished(outbox: Outbox, key: (Channel, Award), state: RowState): Outbox {
    if key in outbox then outbox[key := outbox[key].(state := state)] else outbox
  }

  function Apply(w: World, e: Event): Option<World> {
    match e
    case Begin(t, channel, date, award, snapshot, renders) =>
      if t in w.ticks then None
      else
        var k := Tick(channel, date, award, snapshot, if renders then Rendered else Unrendered, Unsent, true);
        Some(w.(ticks := w.ticks[t := k]))
    case Land(t, on) =>
      if t in w.ticks && w.ticks[t].call.Open? then
        Some(w.(ticks := w.ticks[t := w.ticks[t].(call := Landed(on))]))
      else None
    case Refuse(t) =>
      if t in w.ticks && w.ticks[t].call.Open? then
        Some(w.(ticks := w.ticks[t := w.ticks[t].(call := Refused)]))
      else None
    case FollowUpReserve(channel, date, id) =>
      if SlotFree(w.slots, channel, date, FollowUp(id)) then
        Some(w.(slots := w.slots[(channel, date) := FollowUp(id)]))
      else Some(w)
    case FollowUpRelease(id) => Some(w.(slots := WithoutSlot(w.slots, FollowUp(id))))
    case _ => if e.t in w.ticks && w.ticks[e.t].alive then Act(w, e.t, w.ticks[e.t], e) else None
  }

  function Replay(w: World, events: seq<Event>): Option<World>
    decreases |events|
  {
    if events == [] then Some(w)
    else
      match Replay(w, events[..|events| - 1])
      case None => None
      case Some(v) => Apply(v, events[|events| - 1])
  }

  // ---------------------------------------------------------------- the invariant

  predicate BeforeCall(p: Point) {
    p.Rendered? || p.Unrendered? || p.QuarantineHeld? || p.SlotHeld? || p.Outrun? || p.BothHeld?
  }

  ghost predicate Sound(k: Tick) {
    && (MayLand(k) ==> HoldsSlot(k) && HoldsRow(k))
    && (BeforeCall(k.point) ==> k.call.Unsent?)
    && (k.point.RowReleased? ==> k.call.Refused?)
    && (k.point.Answered? ==> Explains(k.call, k.point.reply) && !k.call.Unsent?)
    && (k.point.Calling? ==> !k.call.Unsent?)
  }

  ghost predicate SlotsHeld(w: World) {
    && (forall a, b :: a in w.slots && b in w.slots && w.slots[a] == w.slots[b] ==> a == b)
    && (forall t :: t in w.ticks && HoldsSlot(w.ticks[t]) ==>
          (w.ticks[t].channel, w.ticks[t].date) in w.slots
          && w.slots[(w.ticks[t].channel, w.ticks[t].date)] == SlotKeyOf(w.ticks[t]))
    && (forall t, u | t in w.ticks && u in w.ticks && t != u && HoldsSlot(w.ticks[t]) && HoldsSlot(w.ticks[u]) ::
          (w.ticks[t].channel, w.ticks[t].date) != (w.ticks[u].channel, w.ticks[u].date))
  }

  ghost predicate RowsHeld(w: World) {
    && (forall t :: t in w.ticks && HoldsRow(w.ticks[t]) ==> RowKeyOf(w.ticks[t]) in w.outbox)
    && (forall t, u :: t in w.ticks && u in w.ticks && t != u && HoldsRow(w.ticks[t]) && HoldsRow(w.ticks[u]) ==>
          RowKeyOf(w.ticks[t]) != RowKeyOf(w.ticks[u]))
  }

  ghost predicate Inv(w: World) {
    SlotsHeld(w) && RowsHeld(w) && forall t :: t in w.ticks ==> Sound(w.ticks[t])
  }

  /** Any tables, no tick under way. */
  ghost predicate Quiet(w: World) {
    w.ticks == map[] && forall a, b :: a in w.slots && b in w.slots && w.slots[a] == w.slots[b] ==> a == b
  }

  function SlotOf(k: Tick): (Channel, Date) { (k.channel, k.date) }

  ghost predicate SameTick(k: Tick, n: Tick) {
    k.channel == n.channel && k.date == n.date && k.award == n.award && k.snapshot == n.snapshot
  }

  /** A tick that gains no slot. */
  lemma SlotsUnmoved(w: World, v: World, t: TickId, n: Tick)
    requires SlotsHeld(w) && v.slots == w.slots && v.ticks == w.ticks[t := n]
    requires HoldsSlot(n) ==> t in w.ticks && HoldsSlot(w.ticks[t]) && SameTick(w.ticks[t], n)
    ensures SlotsHeld(v)
  {
  }

  lemma SlotTaken(w: World, v: World, t: TickId, n: Tick)
    requires SlotsHeld(w) && t in w.ticks && !HoldsSlot(w.ticks[t]) && SameTick(w.ticks[t], n)
    requires SlotFree(w.slots, n.channel, n.date, SlotKeyOf(n))
    requires v.slots == w.slots[SlotOf(n) := SlotKeyOf(n)] && v.ticks == w.ticks[t := n]
    ensures SlotsHeld(v)
  {
    forall a, b | a in v.slots && b in v.slots && v.slots[a] == v.slots[b] ensures a == b {
      if a != SlotOf(n) { assert w.slots[a] in w.slots.Values; }
      if b != SlotOf(n) { assert w.slots[b] in w.slots.Values; }
    }
  }

  /** Deleting by key removes the holder's row and no other tick's. */
  lemma SlotGivenUp(w: World, v: World, t: TickId, n: Tick)
    requires SlotsHeld(w) && t in w.ticks && HoldsSlot(w.ticks[t]) && SameTick(w.ticks[t], n) && !HoldsSlot(n)
    requires v.slots == WithoutSlot(w.slots, SlotKeyOf(n)) && v.ticks == w.ticks[t := n]
    ensures SlotsHeld(v)
  {
    forall u | u in v.ticks && HoldsSlot(v.ticks[u])
      ensures SlotOf(v.ticks[u]) in v.slots && v.slots[SlotOf(v.ticks[u])] == SlotKeyOf(v.ticks[u])
    {
      assert w.slots[SlotOf(w.ticks[u])] == SlotKeyOf(w.ticks[u]);
      assert w.slots[SlotOf(w.ticks[t])] == SlotKeyOf(w.ticks[t]);
    }
  }

  lemma FollowUpTaken(w: World, v: World, slot: (Channel, Date), id: nat)
    requires SlotsHeld(w) && SlotFree(w.slots, slot.0, slot.1, FollowUp(id))
    requires v.slots == w.slots[slot := FollowUp(id)] && v.ticks == w.ticks
    ensures SlotsHeld(v)
  {
    forall a, b | a in v.slots && b in v.slots && v.slots[a] == v.slots[b] ensures a == b {
      if a != slot { assert w.slots[a] in w.slots.Values; }
      if b != slot { assert w.slots[b] in w.slots.Values; }
    }
  }

  lemma FollowUpGivenUp(w: World, v: World, id: nat)
    requires SlotsHeld(w) && v.slots == WithoutSlot(w.slots, FollowUp(id)) && v.ticks == w.ticks
    ensures SlotsHeld(v)
  {
  }

  lemma RowsUnmoved(w: World, v: World, t: TickId, n: Tick)
    requires RowsHeld(w) && v.outbox.Keys == w.outbox.Keys && v.ticks == w.ticks[t := n]
    requires HoldsRow(n) ==> t in w.ticks && HoldsRow(w.ticks[t]) && SameTick(w.ticks[t], n)
    ensures RowsHeld(v)
  {
  }

  lemma RowTaken(w: World, v: World, t: TickId, n: Tick)
    requires RowsHeld(w) && t in w.ticks && !HoldsRow(w.ticks[t]) && SameTick(w.ticks[t], n)
    requires RowKeyOf(n) !in w.outbox && v.outbox.Keys == w.outbox.Keys + {RowKeyOf(n)} && v.ticks == w.ticks[t := n]
    ensures RowsHeld(v)
  {
  }

  lemma RowGivenUp(w: World, v: World, t: TickId, n: Tick)
    requires RowsHeld(w) && t in w.ticks && HoldsRow(w.ticks[t]) && SameTick(w.ticks[t], n) && !HoldsRow(n)
    requires v.outbox.Keys == w.outbox.Keys - {RowKeyOf(n)} && v.ticks == w.ticks[t := n]
    ensures RowsHeld(v)
  {
  }

  lemma SlotsKept(w: World, e: Event, v: World)
    requires Inv(w) && Apply(w, e) == Some(v)
    ensures SlotsHeld(v)
  {
    if e.FollowUpReserve? || e.FollowUpRelease? { FollowUpSlots(w, e, v); }
    else if e.ReserveSlot? { ReservedSlot(w, e.t, v); }
    else if e.DropSlot? || e.ReleaseSlot? { ReleasedSlot(w, e, v); }
    else { PlainSlots(w, e, v); }
  }

  lemma FollowUpSlots(w: World, e: Event, v: World)
    requires Inv(w) && Apply(w, e) == Some(v) && (e.FollowUpReserve? || e.FollowUpRelease?)
    ensures SlotsHeld(v)
  {
    if e.FollowUpRelease? { FollowUpGivenUp(w, v, e.id); }
    else if SlotFree(w.slots, e.channel, e.date, FollowUp(e.id)) { FollowUpTaken(w, v, (e.channel, e.date), e.id); }
  }

  lemma ReservedSlot(w: World, t: TickId, v: World)
    requires Inv(w) && Apply(w, ReserveSlot(t)) == Some(v)
    ensures SlotsHeld(v)
  {
    if v.slots == w.slots { SlotsUnmoved(w, v, t, v.ticks[t]); } else { SlotTaken(w, v, t, v.ticks[t]); }
  }

  lemma ReleasedSlot(w: World, e: Event, v: World)
    requires Inv(w) && Apply(w, e) == Some(v) && (e.DropSlot? || e.ReleaseSlot?)
    ensures SlotsHeld(v)
  {
    SlotGivenUp(w, v, e.t, v.ticks[e.t]);
  }

  lemma PlainSlots(w: World, e: Event, v: World)
    requires Inv(w) && Apply(w, e) == Some(v)
    requires !e.FollowUpReserve? && !e.FollowUpRelease? && !e.ReserveSlot? && !e.DropSlot? && !e.ReleaseSlot?
    ensures SlotsHeld(v)
  {
    PlainMove(w, e, v);
    SlotsUnmoved(w, v, e.t, v.ticks[e.t]);
  }

  /** Every other event changes one tick, without gaining it a slot. */
  lemma PlainMove(w: World, e: Event, v: World)
    requires Inv(w) && Apply(w, e) == Some(v)
    requires !e.FollowUpReserve? && !e.FollowUpRelease? && !e.ReserveSlot? && !e.DropSlot? && !e.ReleaseSlot?
    ensures e.t in v.ticks && v.slots == w.slots && v.ticks == w.ticks[e.t := v.ticks[e.t]]
    ensures HoldsSlot(v.ticks[e.t]) ==>
      e.t in w.ticks && HoldsSlot(w.ticks[e.t]) && SameTick(w.ticks[e.t], v.ticks[e.t])
  {
    match e
    case Begin(t, _, _, _, _, _) =>
    case ReserveQuarantine(t) =>
    case FinishQuarantine(t) =>
    case ReserveRow(t) =>
    case NoClient(t) =>
    case Send(t) =>
    case Answer(t, _) =>
    case ReleaseRow(t) =>
    case FinishRow(t) =>
    case Die(t) =>
    case Land(t, _) =>
    case Refuse(t) =>
  }

  lemma RowsKept(w: World, e: Event, v: World)
    requires Inv(w) && Apply(w, e) == Some(v)
    ensures RowsHeld(v)
  {
    if e.FollowUpReserve? || e.FollowUpRelease? { assert v.outbox == w.outbox && v.ticks == w.ticks; }
    else if e.ReserveQuarantine? || e.ReserveRow? { ReservedRow(w, e, v); }
    else if e.ReleaseRow? { RowGivenUp(w, v, e.t, v.ticks[e.t]); }
    else { PlainRows(w, e, v); }
  }

  lemma ReservedRow(w: World, e: Event, v: World)
    requires Inv(w) && Apply(w, e) == Some(v) && (e.ReserveQuarantine? || e.ReserveRow?)
    ensures RowsHeld(v)
  {
    if v.outbox == w.outbox { RowsUnmoved(w, v, e.t, v.ticks[e.t]); } else { RowTaken(w, v, e.t, v.ticks[e.t]); }
  }

  lemma PlainRows(w: World, e: Event, v: World)
    requires Inv(w) && Apply(w, e) == Some(v)
    requires !e.FollowUpReserve? && !e.FollowUpRelease? && !e.ReserveQuarantine? && !e.ReserveRow? && !e.ReleaseRow?
    ensures RowsHeld(v)
  {
    RowMove(w, e, v);
    RowsUnmoved(w, v, e.t, v.ticks[e.t]);
  }

  lemma RowMove(w: World, e: Event, v: World)
    requires Inv(w) && Apply(w, e) == Some(v)
    requires !e.FollowUpReserve? && !e.FollowUpRelease? && !e.ReserveQuarantine? && !e.ReserveRow? && !e.ReleaseRow?
    ensures e.t in v.ticks && v.outbox.Keys == w.outbox.Keys && v.ticks == w.ticks[e.t := v.ticks[e.t]]
    ensures HoldsRow(v.ticks[e.t]) ==>
      e.t in w.ticks && HoldsRow(w.ticks[e.t]) && SameTick(w.ticks[e.t], v.ticks[e.t])
  {
    match e
    case Begin(t, _, _, _, _, _) =>
    case FinishQuarantine(t) =>
    case ReserveSlot(t) =>
    case DropSlot(t) =>
    case NoClient(t) =>
    case Send(t) =>
    case Answer(t, _) =>
    case ReleaseSlot(t) =>
    case FinishRow(t) =>
    case Die(t) =>
    case Land(t, _) =>
    case Refuse(t) =>
  }

  predicate AroundCall(e: Event) { e.Send? || e.Answer? || e.ReleaseRow? || e.ReleaseSlot? || e.FinishRow? }

  lemma TicksSound(w: World, e: Event, v: World)
    requires Inv(w) && Apply(w, e) == Some(v)
    ensures forall t :: t in v.ticks ==> Sound(v.ticks[t])
  {
    if e.FollowUpReserve? || e.FollowUpRelease? { assert v.ticks == w.ticks; }
    else if AroundCall(e) { CallerSound(w, e, v); }
    else { ActorSound(w, e, v); }
  }

  lemma CallerSound(w: World, e: Event, v: World)
    requires Inv(w) && Apply(w, e) == Some(v) && AroundCall(e)
    ensures e.t in v.ticks && v.ticks == w.ticks[e.t := v.ticks[e.t]] && Sound(v.ticks[e.t])
  {
    assert Sound(w.ticks[e.t]);
    match e
    case Send(t) =>
    case Answer(t, _) =>
    case ReleaseRow(t) =>
    case ReleaseSlot(t) =>
    case FinishRow(t) =>
  }

  lemma ActorSound(w: World, e: Event, v: World)
    requires Inv(w) && Apply(w, e) == Some(v) && !e.FollowUpReserve? && !e.FollowUpRelease? && !AroundCall(e)
    ensures e.t in v.ticks && v.ticks == w.ticks[e.t := v.ticks[e.t]] && Sound(v.ticks[e.t])
  {
    match e
    case Begin(t, _, _, _, _, _) =>
    case ReserveQuarantine(t) =>
    case FinishQuarantine(t) =>
    case ReserveSlot(t) =>
    case ReserveRow(t) =>
    case DropSlot(t) =>
    case NoClient(t) =>
    case Die(t) =>
    case Land(t, _) =>
    case Refuse(t) =>
  }

  lemma StepKeepsInv(w: World, e: Event)
    requires Inv(w) && Apply(w, e).Some?
    ensures Inv(Apply(w, e).value)
  {
    SlotsKept(w, e, Apply(w, e).value);
    RowsKept(w, e, Apply(w, e).value);
    TicksSound(w, e, Apply(w, e).value);
  }

  lemma {:induction false} ReachedInv(w: World, events: seq<Event>)
    requires Inv(w) && Replay(w, events).Some?
    ensures Inv(Replay(w, events).value)
    decreases |events|
  {
    if events != [] {
      ReachedInv(w, events[..|events| - 1]);
      StepKeepsInv(Replay(w, events[..|events| - 1]).value, events[|events| - 1]);
    }
  }

  // ---------------------------------------------------------------- at most one landing

  /** Main result: among all ticks ever, concurrent, crashed or alive, two messages that landed (or may
      still land) in one channel belong to different dates and to different awards. */
  lemma OneLanding(w: World, events: seq<Event>, t: TickId, u: TickId)
    requires Quiet(w) && Replay(w, events).Some? && t != u
    requires var v := Replay(w, events).value;
      t in v.ticks && u in v.ticks && MayLand(v.ticks[t]) && MayLand(v.ticks[u])
      && v.ticks[t].channel == v.ticks[u].channel
    ensures var v := Replay(w, events).value;
      v.ticks[t].date != v.ticks[u].date && v.ticks[t].award != v.ticks[u].award
  {
    ReachedInv(w, events);
  }

  // ---------------------------------------------------------------- what the rows say

  /** A finished row tells the truth about its holder's call. */
  ghost predicate Told(state: RowState, k: Tick) {
    && (!k.point.Done? ==> state.Sending?)
    && (state.Delivered? ==> k.call.Landed?)
    && (state.Rejected? ==> k.call.Refused?)
    && (state.Unrenderable? ==> k.call.Unsent?)
  }

  ghost predicate RowsTell(w: World) {
    forall t :: t in w.ticks && HoldsRow(w.ticks[t]) ==>
      RowKeyOf(w.ticks[t]) in w.outbox && Told(w.outbox[RowKeyOf(w.ticks[t])].state, w.ticks[t])
  }

  /** The row of every holder but the acting tick is untouched. */
  lemma OthersRows(w: World, e: Event, v: World, u: TickId)
    requires Inv(w) && Apply(w, e) == Some(v) && u in w.ticks && HoldsRow(w.ticks[u])
    requires e.FollowUpReserve? || e.FollowUpRelease? || e.t != u
    ensures RowKeyOf(w.ticks[u]) in v.outbox && v.outbox[RowKeyOf(w.ticks[u])] == w.outbox[RowKeyOf(w.ticks[u])]
  {
    assert RowKeyOf(w.ticks[u]) in w.outbox;
    if e.ReserveQuarantine? || e.ReserveRow? { ReservingKeepsRow(w, e, v, RowKeyOf(w.ticks[u])); }
    else if e.FinishQuarantine? || e.NoClient? || e.ReleaseRow? || e.FinishRow? {
      HolderTouchesOwnRow(w, e, v, RowKeyOf(w.ticks[u]));
      assert RowKeyOf(w.ticks[u]) != RowKeyOf(w.ticks[e.t]);
    } else { assert v.outbox == w.outbox; }
  }

  lemma ReservingKeepsRow(w: World, e: Event, v: World, key: (Channel, Award))
    requires Apply(w, e) == Some(v) && (e.ReserveQuarantine? || e.ReserveRow?) && key in w.outbox
    ensures key in v.outbox && v.outbox[key] == w.outbox[key]
  {
  }

  lemma HolderTouchesOwnRow(w: World, e: Event, v: World, key: (Channel, Award))
    requires Apply(w, e) == Some(v) && key in w.outbox
    requires e.FinishQuarantine? || e.NoClient? || e.ReleaseRow? || e.FinishRow?
    ensures e.t in w.ticks && HoldsRow(w.ticks[e.t])
    ensures key != RowKeyOf(w.ticks[e.t]) ==> key in v.outbox && v.outbox[key] == w.outbox[key]
  {
  }

  ghost predicate TickTold(w: World, t: TickId) {
    t in w.ticks && HoldsRow(w.ticks[t]) ==>
      RowKeyOf(w.ticks[t]) in w.outbox && Told(w.outbox[RowKeyOf(w.ticks[t])].state, w.ticks[t])
  }

  lemma CallerTells(w: World, e: Event, v: World)
    requires Inv(w) && Apply(w, e) == Some(v) && AroundCall(e) && TickTold(w, e.t)
    ensures TickTold(v, e.t)
  {
    assert Sound(w.ticks[e.t]);
    match e
    case Send(t) =>
    case Answer(t, _) =>
    case ReleaseRow(t) =>
    case ReleaseSlot(t) =>
    case FinishRow(t) =>
  }

  lemma ActorTells(w: World, e: Event, v: World)
    requires Inv(w) && Apply(w, e) == Some(v) && !e.FollowUpReserve? && !e.FollowUpRelease? && !AroundCall(e)
    requires TickTold(w, e.t)
    ensures TickTold(v, e.t)
  {
    if e.t in w.ticks { assert Sound(w.ticks[e.t]); }
    match e
    case Begin(t, _, _, _, _, _) =>
    case ReserveQuarantine(t) =>
    case FinishQuarantine(t) =>
    case ReserveSlot(t) =>
    case ReserveRow(t) =>
    case DropSlot(t) =>
    case NoClient(t) =>
    case Die(t) =>
    case Land(t, _) =>
    case Refuse(t) =>
  }

  lemma StepKeepsTelling(w: World, e: Event)
    requires Inv(w) && RowsTell(w) && Apply(w, e).Some?
    ensures RowsTell(Apply(w, e).value)
  {
    var v := Apply(w, e).value;
    if AroundCall(e) {
      assert TickTold(w, e.t);
      CallerTells(w, e, v);
    } else if !e.FollowUpReserve? && !e.FollowUpRelease? {
      assert TickTold(w, e.t);
      ActorTells(w, e, v);
    }
    forall t | t in v.ticks && HoldsRow(v.ticks[t])
      ensures RowKeyOf(v.ticks[t]) in v.outbox && Told(v.outbox[RowKeyOf(v.ticks[t])].state, v.ticks[t])
    {
      if e.FollowUpReserve? || e.FollowUpRelease? || e.t != t {
        UntouchedTick(w, e, v, t);
        OthersRows(w, e, v, t);
      }
    }
  }

  lemma UntouchedTick(w: World, e: Event, v: World, t: TickId)
    requires Apply(w, e) == Some(v) && t in v.ticks && (e.FollowUpReserve? || e.FollowUpRelease? || e.t != t)
    ensures t in w.ticks && v.ticks[t] == w.ticks[t]
  {
  }

  lemma {:induction false} ReachedTelling(w: World, events: seq<Event>)
    requires Inv(w) && RowsTell(w) && Replay(w, events).Some?
    ensures RowsTell(Replay(w, events).value)
    decreases |events|
  {
    if events != [] {
      var most := events[..|events| - 1];
      ReachedTelling(w, most);
      ReachedInv(w, most);
      StepKeepsTelling(Replay(w, most).value, events[|events| - 1]);
    }
  }

  /** Main result: a row finished by the tick that holds it is true: `delivered` only if the message
      landed, `rejected` only if Slack refused it, `unrenderable` only if nothing was sent. */
  lemma RowsTellTheTruth(w: World, events: seq<Event>, t: TickId)
    requires Quiet(w) && Replay(w, events).Some?
    requires t in Replay(w, events).value.ticks && HoldsRow(Replay(w, events).value.ticks[t])
    ensures var v := Replay(w, events).value; var k := v.ticks[t];
      && RowKeyOf(k) in v.outbox
      && (v.outbox[RowKeyOf(k)].state.Delivered? ==> k.call.Landed?)
      && (v.outbox[RowKeyOf(k)].state.Rejected? ==> k.call.Refused?)
      && (v.outbox[RowKeyOf(k)].state.Unrenderable? ==> k.call.Unsent?)
  {
    ReachedTelling(w, events);
  }

  // ---------------------------------------------------------------- who deletes a reservation

  /** Main result: a rich slot disappears only by the act of the tick holding it, which has made no call
      or was refused. */
  lemma SlotDeletedByHolder(w: World, e: Event, slot: (Channel, Date))
    requires Inv(w) && Apply(w, e).Some? && slot in w.slots && w.slots[slot].Rich?
    requires slot !in Apply(w, e).value.slots || Apply(w, e).value.slots[slot] != w.slots[slot]
    ensures (e.DropSlot? || e.ReleaseSlot?) && e.t in w.ticks
    ensures var k := w.ticks[e.t];
      HoldsSlot(k) && SlotOf(k) == slot && w.slots[slot] == SlotKeyOf(k) && (k.call.Unsent? || k.call.Refused?)
  {
    var v := Apply(w, e).value;
    if e.DropSlot? || e.ReleaseSlot? {
      var k := w.ticks[e.t];
      assert Sound(k);
      assert w.slots[SlotOf(k)] == SlotKeyOf(k);
    } else if !e.ReserveSlot? && !e.FollowUpReserve? && !e.FollowUpRelease? {
      PlainMove(w, e, v);
    }
  }

  /** Likewise for the award's row: only its holder deletes it, after a refusal. */
  lemma RowDeletedByHolder(w: World, e: Event, key: (Channel, Award))
    requires Inv(w) && Apply(w, e).Some? && key in w.outbox && key !in Apply(w, e).value.outbox
    ensures e.ReleaseRow? && e.t in w.ticks
    ensures HoldsRow(w.ticks[e.t]) && RowKeyOf(w.ticks[e.t]) == key && w.ticks[e.t].call.Refused?
  {
    if e.ReleaseRow? {
      assert Sound(w.ticks[e.t]);
    } else if !e.FollowUpReserve? && !e.FollowUpRelease? && !e.ReserveQuarantine? && !e.ReserveRow? {
      RowMove(w, e, Apply(w, e).value);
    }
  }

  lemma LandedStaysStep(w: World, e: Event, t: TickId)
    requires Inv(w) && Apply(w, e).Some? && t in w.ticks && w.ticks[t].call.Landed?
    ensures t in Apply(w, e).value.ticks && SameTick(w.ticks[t], Apply(w, e).value.ticks[t])
    ensures Apply(w, e).value.ticks[t].call == w.ticks[t].call
  {
    if e.FollowUpReserve? || e.FollowUpRelease? || e.t != t {
      OtherTick(w, e, t);
    } else {
      SentTickMoves(w, e, t);
    }
  }

  lemma OtherTick(w: World, e: Event, t: TickId)
    requires Apply(w, e).Some? && t in w.ticks && (e.FollowUpReserve? || e.FollowUpRelease? || e.t != t)
    ensures t in Apply(w, e).value.ticks && Apply(w, e).value.ticks[t] == w.ticks[t]
  {
  }

  lemma SentTickMoves(w: World, e: Event, t: TickId)
    requires Inv(w) && Apply(w, e).Some? && t in w.ticks && w.ticks[t].call.Landed?
    requires !e.FollowUpReserve? && !e.FollowUpRelease? && e.t == t
    ensures t in Apply(w, e).value.ticks && SameTick(w.ticks[t], Apply(w, e).value.ticks[t])
    ensures Apply(w, e).value.ticks[t].call == w.ticks[t].call
  {
    assert Sound(w.ticks[t]);
  }

  lemma ReplayCut(w: World, events: seq<Event>, k: nat)
    requires k <= |events| && Replay(w, events).Some?
    ensures Replay(w, events[..k]).Some?
    decreases |events|
  {
    if k < |events| {
      ReplayCut(w, events[..|events| - 1], k);
      assert events[..|events| - 1][..k] == events[..k];
    } else {
      assert events[..k] == events;
    }
  }

  /** The world before event `k`. */
  function At(w: World, events: seq<Event>, k: nat): World
    requires k <= |events| && Replay(w, events).Some?
  {
    ReplayCut(w, events, k);
    Replay(w, events[..k]).value
  }

  /** Main result: once a message has landed, its day and its award stay taken for good, whatever the
      other ticks do and even if its own tick died. */
  lemma {:induction false} LandedStaysTaken(w: World, events: seq<Event>, k: nat, t: TickId)
    requires Quiet(w) && Replay(w, events).Some? && k <= |events|
    requires t in At(w, events, k).ticks && At(w, events, k).ticks[t].call.Landed?
    ensures var before, after := At(w, events, k), Replay(w, events).value;
      && t in after.ticks && SameTick(before.ticks[t], after.ticks[t]) && after.ticks[t].call == before.ticks[t].call
      && SlotOf(after.ticks[t]) in after.slots && after.slots[SlotOf(after.ticks[t])] == SlotKeyOf(after.ticks[t])
      && RowKeyOf(after.ticks[t]) in after.outbox
    decreases |events|
  {
    ReachedInv(w, events);
    if k < |events| {
      var most := events[..|events| - 1];
      assert most[..k] == events[..k];
      LandedStaysTaken(w, most, k, t);
      ReachedInv(w, most);
      LandedStaysStep(Replay(w, most).value, events[|events| - 1], t);
    } else {
      assert events[..k] == events;
    }
    assert Sound(Replay(w, events).value.ticks[t]);
  }

  /** A tick that died holding a slot holds it for ever: its award can never be sent to that channel
      again, even when Slack had refused it and the row was already released. */
  lemma {:induction false} DeadHolderBlocksAward(w: World, events: seq<Event>, k: nat, t: TickId, u: TickId)
    requires Quiet(w) && Replay(w, events).Some? && k <= |events| && t != u
    requires var v := At(w, events, k); t in v.ticks && !v.ticks[t].alive && HoldsSlot(v.ticks[t])
    ensures var before, after := At(w, events, k), Replay(w, events).value;
      && t in after.ticks && SameTick(before.ticks[t], after.ticks[t])
      && !after.ticks[t].alive && HoldsSlot(after.ticks[t])
      && (u in after.ticks && SlotKeyOf(after.ticks[u]) == SlotKeyOf(after.ticks[t]) ==>
            !HoldsSlot(after.ticks[u]) && !MayLand(after.ticks[u]))
    decreases |events|
  {
    ReachedInv(w, events);
    if k < |events| {
      var most := events[..|events| - 1];
      assert most[..k] == events[..k];
      DeadHolderBlocksAward(w, most, k, t, u);
      DeadStays(Replay(w, most).value, events[|events| - 1], t);
    } else {
      assert events[..k] == events;
    }
    SoleHolder(Replay(w, events).value, t, u);
  }

  lemma DeadStays(w: World, e: Event, t: TickId)
    requires Apply(w, e).Some? && t in w.ticks && !w.ticks[t].alive
    ensures t in Apply(w, e).value.ticks && SameTick(w.ticks[t], Apply(w, e).value.ticks[t])
    ensures !Apply(w, e).value.ticks[t].alive && Apply(w, e).value.ticks[t].point == w.ticks[t].point
  {
    if e.FollowUpReserve? || e.FollowUpRelease? || e.t != t { OtherTick(w, e, t); }
  }

  lemma SoleHolder(w: World, t: TickId, u: TickId)
    requires Inv(w) && t in w.ticks && HoldsSlot(w.ticks[t]) && t != u
    ensures u in w.ticks && SlotKeyOf(w.ticks[u]) == SlotKeyOf(w.ticks[t]) ==>
      !HoldsSlot(w.ticks[u]) && !MayLand(w.ticks[u])
  {
    if u in w.ticks { assert Sound(w.ticks[u]); }
    assert w.slots[SlotOf(w.ticks[t])] == SlotKeyOf(w.ticks[t]);
  }

  // ---------------------------------------------------------------- midnight

  /** Every landing happened on a date its tick's date allows. */
  ghost predicate LandsWithin(w: World, late: (Date, Date) -> bool) {
    forall t :: t in w.ticks && w.ticks[t].call.Landed? ==> late(w.ticks[t].date, w.ticks[t].call.on)
  }

  /** At most one message landed per channel and calendar date of landing. */
  ghost predicate OnePerLandingDate(w: World) {
    forall t, u | t in w.ticks && u in w.ticks && t != u && w.ticks[t].call.Landed? && w.ticks[u].call.Landed? ::
      w.ticks[t].channel == w.ticks[u].channel ==> w.ticks[t].call.on != w.ticks[u].call.on
  }

  const EMPTY := World(map[], map[], map[])

  function Delivering(t: TickId, channel: Channel, date: Date, award: Award, on: Date): seq<Event> {
    [Begin(t, channel, date, award, award, true), ReserveSlot(t), ReserveRow(t), Send(t), Land(t, on)]
  }

  lemma ReplayMore(w: World, events: seq<Event>, e: Event)
    requires Replay(w, events).Some?
    ensures Replay(w, events + [e]) == Apply(Replay(w, events).value, e)
  {
    assert (events + [e])[..|events|] == events;
  }

  lemma ReservingReplays(w: World, events: seq<Event>, t: TickId, channel: Channel, date: Date, award: Award)
    requires Replay(w, events).Some?
    requires var v := Replay(w, events).value;
      t !in v.ticks && SlotFree(v.slots, channel, date, Rich(channel, award)) && (channel, award) !in v.outbox
    ensures var v := Replay(w, events).value;
      Replay(w, events + [Begin(t, channel, date, award, award, true)] + [ReserveSlot(t)] + [ReserveRow(t)]) ==
        Some(World(v.slots[(channel, date) := Rich(channel, award)], v.outbox[(channel, award) := Row(Sending, award)],
                   v.ticks[t := Tick(channel, date, award, award, BothHeld, Unsent, true)]))
  {
    var v := Replay(w, events).value;
    var k := Tick(channel, date, award, award, Rendered, Unsent, true);
    var e1 := events + [Begin(t, channel, date, award, award, true)];
    ReplayMore(w, events, Begin(t, channel, date, award, award, true));
    assert Replay(w, e1) == Some(v.(ticks := v.ticks[t := k]));
    ReplayMore(w, e1, ReserveSlot(t));
    assert Replay(w, e1 + [ReserveSlot(t)]).value.ticks == v.ticks[t := k.(point := SlotHeld)];
    ReplayMore(w, e1 + [ReserveSlot(t)], ReserveRow(t));
    assert Replay(w, e1 + [ReserveSlot(t)] + [ReserveRow(t)]).value.ticks == v.ticks[t := k.(point := BothHeld)];
  }

  lemma LandingReplays(w: World, events: seq<Event>, t: TickId, on: Date)
    requires Replay(w, events).Some?
    requires var v := Replay(w, events).value; t in v.ticks && v.ticks[t].point.BothHeld? && v.ticks[t].alive
    ensures var v := Replay(w, events).value;
      Replay(w, events + [Send(t)] + [Land(t, on)]) ==
        Some(v.(ticks := v.ticks[t := v.ticks[t].(point := Calling, call := Landed(on))]))
  {
    var v := Replay(w, events).value;
    ReplayMore(w, events, Send(t));
    assert Replay(w, events + [Send(t)]).value.ticks == v.ticks[t := v.ticks[t].(point := Calling, call := Open)];
    ReplayMore(w, events + [Send(t)], Land(t, on));
    assert Replay(w, events + [Send(t)] + [Land(t, on)]).value.ticks ==
      v.ticks[t := v.ticks[t].(point := Calling, call := Landed(on))];
  }

  lemma DeliveringReplays(w: World, events: seq<Event>, t: TickId, channel: Channel, date: Date, award: Award, on: Date)
    requires Replay(w, events).Some?
    requires var v := Replay(w, events).value;
      t !in v.ticks && SlotFree(v.slots, channel, date, Rich(channel, award)) && (channel, award) !in v.outbox
    ensures var v := Replay(w, events).value;
      var k := Tick(channel, date, award, award, Calling, Landed(on), true);
      Replay(w, events + Delivering(t, channel, date, award, on)) ==
        Some(World(v.slots[(channel, date) := Rich(channel, award)], v.outbox[(channel, award) := Row(Sending, award)],
                   v.ticks[t := k]))
  {
    var v := Replay(w, events).value;
    var reserved := events + [Begin(t, channel, date, award, award, true)] + [ReserveSlot(t)] + [ReserveRow(t)];
    ReservingReplays(w, events, t, channel, date, award);
    LandingReplays(w, reserved, t, on);
    assert reserved + [Send(t)] + [Land(t, on)] == events + Delivering(t, channel, date, award, on);
    assert v.ticks[t := Tick(channel, date, award, award, BothHeld, Unsent, true)]
                  [t := Tick(channel, date, award, award, Calling, Landed(on), true)]
        == v.ticks[t := Tick(channel, date, award, award, Calling, Landed(on), true)];
  }

  /** Two ticks of different dates whose messages land on the same date. */
  lemma TwoOnOneDate(d1: Date, d2: Date, on: Date)
    returns (events: seq<Event>)
    requires d1 != d2
    ensures Replay(EMPTY, events).Some? && !OnePerLandingDate(Replay(EMPTY, events).value)
    ensures var v := Replay(EMPTY, events).value;
      v.ticks.Keys == {0, 1} && v.ticks[0].date == d1 && v.ticks[1].date == d2
      && v.ticks[0].call == Landed(on) && v.ticks[1].call == Landed(on)
  {
    var first := Delivering(0, 0, d1, 0, on);
    DeliveringReplays(EMPTY, [], 0, 0, d1, 0, on);
    assert [] + first == first;
    DeliveringReplays(EMPTY, first, 1, 0, d2, 1, on);
    events := first + Delivering(1, 0, d2, 1, on);
    var v := Replay(EMPTY, events).value;
    assert v.ticks[0].channel == v.ticks[1].channel && v.ticks[0].call.on == v.ticks[1].call.on;
  }

  ghost predicate AlwaysOnePerLandingDate(late: (Date, Date) -> bool) {
    forall events: seq<Event> :: Replay(EMPTY, events).Some? && LandsWithin(Replay(EMPTY, events).value, late) ==>
      OnePerLandingDate(Replay(EMPTY, events).value)
  }

  /** Main result: the promise of one message per calendar date holds exactly as long as no date can
      receive the messages of two different ticks' dates. Landing on the tick's own date suffices; a
      message that lands after midnight can double the next day's. */
  lemma OnePerCalendarDate(late: (Date, Date) -> bool)
    ensures AlwaysOnePerLandingDate(late) <==> forall d1, d2, on :: late(d1, on) && late(d2, on) ==> d1 == d2
  {
    if AlwaysOnePerLandingDate(late) {
      forall d1, d2, on | d1 != d2 ensures !(late(d1, on) && late(d2, on)) {
        var events := TwoOnOneDate(d1, d2, on);
        assert !LandsWithin(Replay(EMPTY, events).value, late);
      }
    }
    if forall d1, d2, on :: late(d1, on) && late(d2, on) ==> d1 == d2 {
      forall events: seq<Event> | Replay(EMPTY, events).Some? && LandsWithin(Replay(EMPTY, events).value, late)
        ensures OnePerLandingDate(Replay(EMPTY, events).value)
      {
        var v := Replay(EMPTY, events).value;
        forall t, u | t in v.ticks && u in v.ticks && t != u && v.ticks[t].call.Landed? && v.ticks[u].call.Landed?
          && v.ticks[t].channel == v.ticks[u].channel
          ensures v.ticks[t].call.on != v.ticks[u].call.on
        {
          OneLanding(EMPTY, events, t, u);
        }
      }
    }
  }
}
