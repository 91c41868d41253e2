/**
 What an outbox row says once its tick has finished it, and that it says so for good.
 */
module DeliveryRows {
  import opened Options
  import opened Delivery

  /** The three acts that finish a row. */
  predicate Finishes(e: Event) { e.FinishRow? || e.NoClient? || e.FinishQuarantine? }

  /** What the row is to say: the card could not be built; the message went out; Slack refused the card for
      what it contains; or nobody knows, because no answer came or there was no client to ask. */
  ghost predicate Says(w: World, e: Event, state: RowState)
    requires Finishes(e) && e.t in w.ticks
  {
    match state
    case Unrenderable => e.FinishQuarantine?
    case Delivered => e.FinishRow? && w.ticks[e.t].point == Answered(Posted)
    case Rejected => e.FinishRow? && w.ticks[e.t].point == Answered(ContentRefusal)
    case Ambiguous => e.NoClient? || (e.FinishRow? && w.ticks[e.t].point == Answered(NoAnswer))
    case Sending => false
  }

  /** The tick is done and its row says this. */
  ghost predicate Settled(w: World, t: TickId, state: RowState) {
    && t in w.ticks && w.ticks[t].point.Done? && w.ticks[t].point.row
    && RowKeyOf(w.ticks[t]) in w.outbox && w.outbox[RowKeyOf(w.ticks[t])].state == state
  }

  lemma FinishSettles(w: World, e: Event) returns (state: RowState)
    requires Inv(w) && Apply(w, e).Some? && Finishes(e)
    ensures e.t in w.ticks && Says(w, e, state) && Settled(Apply(w, e).value, e.t, state)
  {
    assert RowKeyOf(w.ticks[e.t]) in w.outbox;
    state := if e.FinishQuarantine? then Unrenderable
             else if e.NoClient? then Ambiguous
             else if w.ticks[e.t].point.reply.Posted? then Delivered
             else if w.ticks[e.t].point.reply.ContentRefusal? then Rejected else Ambiguous;
  }

  lemma SettledStep(w: World, e: Event, t: TickId, state: RowState)
    requires Inv(w) && Apply(w, e).Some? && Settled(w, t, state)
    ensures Settled(Apply(w, e).value, t, state)
  {
    if e.FollowUpReserve? || e.FollowUpRelease? || e.t != t {
      OtherTick(w, e, t);
      OthersRows(w, e, Apply(w, e).value, t);
    } else {
      DoneTickActs(w, e);
    }
  }

  lemma DoneTickActs(w: World, e: Event)
    requires Apply(w, e).Some? && !e.FollowUpReserve? && !e.FollowUpRelease?
    requires e.t in w.ticks && w.ticks[e.t].point.Done?
    ensures Apply(w, e).value.outbox == w.outbox && e.t in Apply(w, e).value.ticks
    ensures SameTick(w.ticks[e.t], Apply(w, e).value.ticks[e.t])
    ensures Apply(w, e).value.ticks[e.t].point == w.ticks[e.t].point
  {
  }

  lemma {:induction false} SettledStays(w: World, events: seq<Event>, k: nat, t: TickId, state: RowState)
    requires Quiet(w) && Replay(w, events).Some? && k <= |events| && Settled(At(w, events, k), t, state)
    ensures Settled(Replay(w, events).value, t, state)
    decreases |events|
  {
    if k < |events| {
      var most := events[..|events| - 1];
      assert most[..k] == events[..k];
      ReplayCut(w, events, |events| - 1);
      SettledStays(w, most, k, t, state);
      ReachedInv(w, most);
      SettledStep(Replay(w, most).value, events[|events| - 1], t, state);
    } else {
      assert events[..k] == events;
    }
  }

  lemma StepAt(w: World, events: seq<Event>, k: nat)
    requires Replay(w, events).Some? && k < |events|
    ensures Apply(At(w, events, k), events[k]) == Some(At(w, events, k + 1))
  {
    ReplayCut(w, events, k + 1);
    assert events[..k + 1][..k] == events[..k];
  }

  /** Main result: a tick that finishes its row leaves it saying what happened, and nothing any tick does
      later changes that. */
  lemma FinishedRowsSayWhatHappened(w: World, events: seq<Event>, k: nat) returns (state: RowState)
    requires Quiet(w) && Replay(w, events).Some? && k < |events| && Finishes(events[k])
    ensures events[k].t in At(w, events, k).ticks && Says(At(w, events, k), events[k], state)
    ensures Settled(Replay(w, events).value, events[k].t, state)
  {
    ReplayCut(w, events, k);
    ReachedInv(w, events[..k]);
    StepAt(w, events, k);
    state := FinishSettles(At(w, events, k), events[k]);
    SettledStays(w, events, k + 1, events[k].t, state);
  }
}
