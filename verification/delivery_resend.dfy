/**
 Whether an award can still be sent: a refusal gives its day and its row back, but only if the tick
 that made the call lives long enough.
 */
module DeliveryResend {
  import opened Options
  import opened Delivery

  /** No tick is under way and no call is open. */
  ghost predicate AtRest(w: World) { forall t :: t in w.ticks ==> !w.ticks[t].alive && !w.ticks[t].call.Open? }

  ghost predicate HasLanded(w: World, t: TickId) { t in w.ticks && w.ticks[t].call.Landed? }

  /** These events land a message about the award in the channel. */
  ghost predicate Lands(w: World, events: seq<Event>, channel: Channel, award: Award) {
    Replay(w, events).Some? &&
    exists t :: HasLanded(Replay(w, events).value, t) && !HasLanded(w, t)
      && RowKeyOf(Replay(w, events).value.ticks[t]) == (channel, award)
  }

  // ---------------------------------------------------------------- what blocks

  /** The slot is taken, and whoever holds it is dead. */
  ghost predicate SlotBlocked(w: World, key: (Channel, Award)) {
    && Rich(key.0, key.1) in w.slots.Values
    && forall t :: t in w.ticks && RowKeyOf(w.ticks[t]) == key && HoldsSlot(w.ticks[t]) ==> !w.ticks[t].alive
  }

  ghost predicate RowBlocked(w: World, key: (Channel, Award)) {
    && key in w.outbox
    && forall t :: t in w.ticks && RowKeyOf(w.ticks[t]) == key && HoldsRow(w.ticks[t]) ==> !w.ticks[t].alive
  }

  ghost predicate Blocked(w: World, key: (Channel, Award)) { SlotBlocked(w, key) || RowBlocked(w, key) }

  /** Of this award nothing is open, and nothing has landed that had not landed at the start. */
  ghost predicate NothingNew(start: World, w: World, key: (Channel, Award)) {
    forall t :: t in w.ticks && RowKeyOf(w.ticks[t]) == key ==>
      !w.ticks[t].call.Open? && (HasLanded(w, t) ==> HasLanded(start, t))
  }

  lemma SlotStaysBlocked(w: World, e: Event, key: (Channel, Award))
    requires Inv(w) && Apply(w, e).Some? && SlotBlocked(w, key)
    ensures SlotBlocked(Apply(w, e).value, key)
  {
    var v := Apply(w, e).value;
    var slot :| slot in w.slots && w.slots[slot] == Rich(key.0, key.1);
    if slot !in v.slots || v.slots[slot] != w.slots[slot] {
      SlotDeletedByHolder(w, e, slot);
      assert false;
    }
    forall t | t in v.ticks && RowKeyOf(v.ticks[t]) == key && HoldsSlot(v.ticks[t]) ensures !v.ticks[t].alive {
      if e.FollowUpReserve? || e.FollowUpRelease? || e.t != t { UntouchedTick(w, e, v, t); }
      else if !e.ReserveSlot? && !e.DropSlot? && !e.ReleaseSlot? { SlotHolderActs(w, e, v); }
    }
  }

  /** A tick that holds a slot after a step other than the reservation held it before. */
  lemma SlotHolderActs(w: World, e: Event, v: World)
    requires Inv(w) && Apply(w, e) == Some(v)
    requires !e.FollowUpReserve? && !e.FollowUpRelease? && !e.ReserveSlot? && !e.DropSlot? && !e.ReleaseSlot?
    ensures e.t in v.ticks && (HoldsSlot(v.ticks[e.t]) ==>
      e.t in w.ticks && HoldsSlot(w.ticks[e.t]) && RowKeyOf(w.ticks[e.t]) == RowKeyOf(v.ticks[e.t])
      && (v.ticks[e.t].alive ==> w.ticks[e.t].alive))
  {
    PlainMove(w, e, v);
    if HoldsSlot(v.ticks[e.t]) { AliveBefore(w, e, v); }
  }

  lemma AliveBefore(w: World, e: Event, v: World)
    requires Apply(w, e) == Some(v) && !e.FollowUpReserve? && !e.FollowUpRelease? && e.t in w.ticks && e.t in v.ticks
    ensures v.ticks[e.t].alive ==> w.ticks[e.t].alive
  {
  }

  lemma RowStaysBlocked(w: World, e: Event, key: (Channel, Award))
    requires Inv(w) && Apply(w, e).Some? && RowBlocked(w, key)
    ensures RowBlocked(Apply(w, e).value, key)
  {
    var v := Apply(w, e).value;
    if key !in v.outbox {
      RowDeletedByHolder(w, e, key);
      assert false;
    }
    forall t | t in v.ticks && RowKeyOf(v.ticks[t]) == key && HoldsRow(v.ticks[t]) ensures !v.ticks[t].alive {
      if e.FollowUpReserve? || e.FollowUpRelease? || e.t != t { UntouchedTick(w, e, v, t); }
      else if !e.ReserveQuarantine? && !e.ReserveRow? && !e.ReleaseRow? {
        RowMove(w, e, v);
        AliveBefore(w, e, v);
      }
    }
  }

  lemma NothingComes(start: World, w: World, e: Event, key: (Channel, Award))
    requires Inv(w) && Apply(w, e).Some? && Blocked(w, key) && NothingNew(start, w, key)
    ensures NothingNew(start, Apply(w, e).value, key)
  {
    var v := Apply(w, e).value;
    forall t | t in v.ticks && RowKeyOf(v.ticks[t]) == key
      ensures !v.ticks[t].call.Open? && (HasLanded(v, t) ==> HasLanded(start, t))
    {
      if e.FollowUpReserve? || e.FollowUpRelease? || e.t != t { UntouchedTick(w, e, v, t); }
      else { CallOfBlocked(start, w, e, key); }
    }
  }

  /** The acting tick of a blocked award neither opens a call nor lands one. */
  lemma CallOfBlocked(start: World, w: World, e: Event, key: (Channel, Award))
    requires Inv(w) && Apply(w, e).Some? && Blocked(w, key) && NothingNew(start, w, key)
    requires !e.FollowUpReserve? && !e.FollowUpRelease?
    requires e.t in Apply(w, e).value.ticks && RowKeyOf(Apply(w, e).value.ticks[e.t]) == key
    ensures var k := Apply(w, e).value.ticks[e.t];
      !k.call.Open? && (k.call.Landed? ==> HasLanded(start, e.t))
  {
    CallMoves(w, e);
    if e.Send? { SenderHoldsBoth(w, e); }
  }

  lemma SenderHoldsBoth(w: World, e: Event)
    requires Apply(w, e).Some? && e.Send?
    ensures e.t in w.ticks && w.ticks[e.t].alive && HoldsSlot(w.ticks[e.t]) && HoldsRow(w.ticks[e.t])
  {
  }

  /** Only sending opens a call, and only an open call lands. */
  lemma CallMoves(w: World, e: Event)
    requires Apply(w, e).Some? && !e.FollowUpReserve? && !e.FollowUpRelease? && e.t in Apply(w, e).value.ticks
    ensures var k := Apply(w, e).value.ticks[e.t];
      if e.t in w.ticks then
        && RowKeyOf(k) == RowKeyOf(w.ticks[e.t])
        && (k.call.Open? ==> w.ticks[e.t].call.Open? || e.Send?)
        && (k.call.Landed? ==> w.ticks[e.t].call.Landed? || w.ticks[e.t].call.Open?)
      else k.call.Unsent?
  {
  }

  lemma {:induction false} BlockedForGood(w: World, events: seq<Event>, key: (Channel, Award))
    requires Inv(w) && Replay(w, events).Some? && Blocked(w, key) && NothingNew(w, w, key)
    ensures Blocked(Replay(w, events).value, key) && NothingNew(w, Replay(w, events).value, key)
    decreases |events|
  {
    if events != [] {
      var most, e := events[..|events| - 1], events[|events| - 1];
      BlockedForGood(w, most, key);
      ReachedInv(w, most);
      var v := Replay(w, most).value;
      NothingComes(w, v, e, key);
      if SlotBlocked(v, key) { SlotStaysBlocked(v, e, key); } else { RowStaysBlocked(v, e, key); }
    }
  }

  // ---------------------------------------------------------------- what can be sent

  lemma {:induction false} FreeDate(taken: set<(Channel, Date)>) returns (date: Date)
    ensures forall slot :: slot in taken ==> slot.1 < date
    decreases taken
  {
    date := 0;
    if taken != {} {
      var slot :| slot in taken;
      date := FreeDate(taken - {slot});
      assert forall other :: other in taken ==> other == slot || other in taken - {slot};
      if date <= slot.1 { date := slot.1 + 1; }
    }
  }

  lemma {:induction false} NewTick(taken: set<TickId>) returns (t: TickId)
    ensures forall u :: u in taken ==> u < t
    decreases taken
  {
    t := 0;
    if taken != {} {
      var u :| u in taken;
      t := NewTick(taken - {u});
      assert forall other :: other in taken ==> other == u || other in taken - {u};
      if t <= u { t := u + 1; }
    }
  }

  /** Another tick on a free day delivers what nothing blocks. */
  lemma UnblockedLands(w: World, channel: Channel, award: Award) returns (events: seq<Event>)
    requires Rich(channel, award) !in w.slots.Values && (channel, award) !in w.outbox
    ensures Lands(w, events, channel, award)
  {
    var date := FreeDate(w.slots.Keys);
    var t := NewTick(w.ticks.Keys);
    events := Delivering(t, channel, date, award, date);
    assert (channel, date) !in w.slots;
    DeliveringReplays(w, [], t, channel, date, award, date);
    assert [] + events == events;
    assert HasLanded(Replay(w, events).value, t);
  }

  ghost predicate CanLand(w: World, channel: Channel, award: Award) {
    exists events: seq<Event> :: Lands(w, events, channel, award)
  }

  /** Main result: once no tick is under way, some later tick can still deliver an award to a channel
      exactly if neither its slot key nor its row was left behind. */
  lemma SendableUnlessLeftBehind(start: World, past: seq<Event>, channel: Channel, award: Award)
    requires Quiet(start) && Replay(start, past).Some? && AtRest(Replay(start, past).value)
    ensures var w := Replay(start, past).value;
      CanLand(w, channel, award) <==> Rich(channel, award) !in w.slots.Values && (channel, award) !in w.outbox
  {
    var w := Replay(start, past).value;
    ReachedInv(start, past);
    if Rich(channel, award) !in w.slots.Values && (channel, award) !in w.outbox {
      var events := UnblockedLands(w, channel, award);
    } else {
      forall events: seq<Event> | Replay(w, events).Some? ensures !Lands(w, events, channel, award) {
        BlockedForGood(w, events, (channel, award));
      }
    }
  }

  lemma RefusedReplays(w: World, events: seq<Event>, t: TickId)
    requires Replay(w, events).Some?
    requires var v := Replay(w, events).value; t in v.ticks && v.ticks[t].point.BothHeld? && v.ticks[t].alive
    ensures var v := Replay(w, events).value;
      Replay(w, events + [Send(t)] + [Refuse(t)] + [Answer(t, OtherRefusal)]) ==
        Some(v.(ticks := v.ticks[t := v.ticks[t].(point := Answered(OtherRefusal), call := Refused)]))
  {
    var v := Replay(w, events).value;
    var k := v.ticks[t];
    ReplayMore(w, events, Send(t));
    assert Replay(w, events + [Send(t)]).value.ticks == v.ticks[t := k.(point := Calling, call := Open)];
    ReplayMore(w, events + [Send(t)], Refuse(t));
    assert Replay(w, events + [Send(t)] + [Refuse(t)]).value.ticks ==
      v.ticks[t := k.(point := Calling, call := Refused)];
    ReplayMore(w, events + [Send(t)] + [Refuse(t)], Answer(t, OtherRefusal));
    assert v.ticks[t := k.(point := Calling, call := Refused)]
                  [t := k.(point := Answered(OtherRefusal), call := Refused)]
        == v.ticks[t := k.(point := Answered(OtherRefusal), call := Refused)];
  }

  lemma DyingReplays(w: World, events: seq<Event>, t: TickId)
    requires Replay(w, events).Some?
    requires var v := Replay(w, events).value;
      t in v.ticks && v.ticks[t].point == Answered(OtherRefusal) && v.ticks[t].alive
    ensures var v := Replay(w, events).value;
      Replay(w, events + [ReleaseRow(t)] + [Die(t)]) ==
        Some(World(v.slots, v.outbox - {RowKeyOf(v.ticks[t])},
                   v.ticks[t := v.ticks[t].(point := RowReleased, alive := false)]))
  {
    var v := Replay(w, events).value;
    var k := v.ticks[t];
    ReplayMore(w, events, ReleaseRow(t));
    assert Replay(w, events + [ReleaseRow(t)]).value.ticks == v.ticks[t := k.(point := RowReleased)];
    ReplayMore(w, events + [ReleaseRow(t)], Die(t));
    assert v.ticks[t := k.(point := RowReleased)][t := k.(point := RowReleased, alive := false)]
        == v.ticks[t := k.(point := RowReleased, alive := false)];
  }

  lemma ReservedFirst(channel: Channel, date: Date, award: Award) returns (events: seq<Event>)
    ensures Replay(EMPTY, events) ==
      Some(World(map[(channel, date) := Rich(channel, award)], map[(channel, award) := Row(Sending, award)],
                 map[0 := Tick(channel, date, award, award, BothHeld, Unsent, true)]))
  {
    assert Replay(EMPTY, []) == Some(EMPTY);
    ReservingReplays(EMPTY, [], 0, channel, date, award);
    events := [] + [Begin(0, channel, date, award, award, true)] + [ReserveSlot(0)] + [ReserveRow(0)];
  }

  /** A tick that holds both, is refused, and dies between giving its row back and giving its day back. */
  lemma RefusedThenDead(w: World, events: seq<Event>, t: TickId) returns (after: seq<Event>)
    requires Replay(w, events).Some?
    requires var v := Replay(w, events).value; t in v.ticks && v.ticks[t].point.BothHeld? && v.ticks[t].alive
    ensures var v := Replay(w, events).value;
      Replay(w, after) ==
        Some(World(v.slots, v.outbox - {RowKeyOf(v.ticks[t])},
                   v.ticks[t := v.ticks[t].(point := RowReleased, call := Refused, alive := false)]))
  {
    var v := Replay(w, events).value;
    var n := v.ticks[t].(point := Answered(OtherRefusal), call := Refused);
    RefusedReplays(w, events, t);
    after := events + [Send(t)] + [Refuse(t)] + [Answer(t, OtherRefusal)];
    assert Replay(w, after) == Some(v.(ticks := v.ticks[t := n]));
    DyingReplays(w, after, t);
    after := after + [ReleaseRow(t)] + [Die(t)];
    assert v.ticks[t := n][t := n.(point := RowReleased, alive := false)]
        == v.ticks[t := n.(point := RowReleased, alive := false)];
  }

  /** Main result: Slack refused the card and its row was released, and still no later tick can ever send
      that award to that channel. */
  lemma RefusalCanBlockForGood(channel: Channel, date: Date, award: Award) returns (events: seq<Event>, w: World)
    ensures Replay(EMPTY, events) == Some(w) && AtRest(w)
    ensures 0 in w.ticks && w.ticks[0].call.Refused? && RowKeyOf(w.ticks[0]) == (channel, award)
    ensures (channel, award) !in w.outbox && !CanLand(w, channel, award)
  {
    events := ReservedFirst(channel, date, award);
    events := RefusedThenDead(EMPTY, events, 0);
    w := Replay(EMPTY, events).value;
    assert w.slots[(channel, date)] == Rich(channel, award);
    SendableUnlessLeftBehind(EMPTY, events, channel, award);
  }
}
