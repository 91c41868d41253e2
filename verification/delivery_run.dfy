/**
 One delivery tick as the source writes it, running among others. Between any two of its
 own database steps the rest of the world may do anything the protocol allows; the tick is
 proved to take only protocol steps, so `Delivery`'s results hold with it, and to return what
 its outcome says.
 */
module DeliveryRun {
  import opened Options
  import opened Delivery

  // ---------------------------------------------------------------- pacing

  const CUTOFF := 690 // 11:30 Pacific, in minutes
  const SLOT_START := 600 // 10:00
  const SLOT_SPAN := 46

  datatype Gate = CapReached | Forced | Weekend | MissedCutoff | Waiting | Ready

  /** `should_post`: `count` posts or reservations today, minutes since Pacific midnight. */
  function ShouldPost(count: nat, force: bool, weekend: bool, minute: int, slot: int): Gate {
    if count >= 1 then CapReached
    else if force then Forced
    else if weekend then Weekend
    else if minute >= CUTOFF then MissedCutoff
    else if minute < slot then Waiting
    else Ready
  }

  /** `daily_slot`: a digest of the channel and date picks the minute. */
  function DailySlot(digest: nat): int { SLOT_START + digest % SLOT_SPAN }

  /** A run every `period` minutes, starting `offset` minutes past midnight, meets this slot. */
  ghost predicate GridMeets(period: int, offset: int, slot: int, cutoff: int)
    requires period > 0
  {
    exists n: int :: slot <= offset + n * period < cutoff
  }

  lemma FirstTick(period: int, offset: int, slot: int) returns (n: int)
    requires period > 0
    ensures slot <= offset + n * period < slot + period
  {
    var gap := slot - offset;
    n := if gap % period == 0 then gap / period else gap / period + 1;
  }

  /** Runs every `period` minutes reach every slot of every day, however the runs are offset, exactly
      when the cutoff leaves one whole period after the last slot. */
  lemma EverySlotReachable(period: int, cutoff: int)
    requires period > 0
    ensures (forall offset: int, digest: nat :: GridMeets(period, offset, DailySlot(digest), cutoff))
      <==> cutoff >= SLOT_START + SLOT_SPAN - 1 + period
  {
    var last := DailySlot(SLOT_SPAN - 1);
    if cutoff >= SLOT_START + SLOT_SPAN - 1 + period {
      forall offset: int, digest: nat ensures GridMeets(period, offset, DailySlot(digest), cutoff) {
        var n := FirstTick(period, offset, DailySlot(digest));
        assert DailySlot(digest) <= offset + n * period < cutoff;
      }
    } else {
      assert !GridMeets(period, last - 1, last, cutoff) by {
        forall n: int ensures !(last <= last - 1 + n * period < cutoff) {
          if n >= 1 { assert n * period >= period; } else { assert n * period <= 0; }
        }
      }
    }
  }

  /** The slots are the 46 minutes from 10:00 to 10:45, each the slot of some digest. */
  lemma SlotsFillTheWindow(minute: int)
    ensures (exists digest: nat :: DailySlot(digest) == minute) <==> 600 <= minute <= 645
  {
    if 600 <= minute <= 645 { assert DailySlot(minute - 600) == minute; }
  }

  /** With the hard cutoff at 11:30, runs up to 45 minutes apart reach every slot, and no others do. */
  lemma RunsMayBe45MinutesApart(period: int)
    requires period > 0
    ensures (forall offset: int, digest: nat :: GridMeets(period, offset, DailySlot(digest), CUTOFF)) <==> period <= 45
  {
    EverySlotReachable(period, CUTOFF);
  }

  // ---------------------------------------------------------------- one tick

  datatype Outcome =
    | GuardHeld
    | Skipped(gate: Gate)
    | NoEligibleCard
    | NeedsWorkspace
    | Previewed
    | CandidateChanged
    | StableDeliveryExists
    | Quarantined
    | AlreadyReserved
    | NoClientUnknown
    | BackedOff
    | Blocked
    | RejectedCard
    | Released
    | SendUnknown
    | PostedCard
    | Crashed

  /** `fallback_to_daily`: outcomes after which the plain daily card may still post this tick. */
  predicate FallsBack(o: Outcome) {
    o.NoEligibleCard? || o.CandidateChanged? || o.StableDeliveryExists? || o.AlreadyReserved?
    || o == Skipped(MissedCutoff)
  }

  /** What the review, the clock and the operator hand to a tick. */
  datatype Setting = Setting(
    channel: Channel, date: Date, force: bool, dryRun: bool, weekend: bool, minute: int, slot: int,
    guarded: bool, recorded: nat, pick: Option<(Award, Snapshot)>, workspaceMissing: bool, vetoed: bool,
    snapshotKnown: bool, renders: bool, hasClient: bool, bookkeeps: bool, mortal: bool)

  function Larger(a: nat, b: nat): nat { if a < b then b else a }

  /** The gate as it stands with these slots taken. */
  function GateOf(s: Setting, slots: Slots): Gate {
    var taken := if (s.channel, s.date) in slots then 1 else 0;
    ShouldPost(Larger(taken, s.recorded), s.force, s.weekend, s.minute, s.slot)
  }

  /** The outcome of a tick that ends before it reserves anything. */
  function Early(s: Setting, slots: Slots): Option<Outcome> {
    if s.guarded then Some(GuardHeld)
    else if !GateOf(s, slots).Forced? && !GateOf(s, slots).Ready? then Some(Skipped(GateOf(s, slots)))
    else if s.pick.None? then Some(NoEligibleCard)
    else if s.workspaceMissing then Some(NeedsWorkspace)
    else if s.dryRun then Some(Previewed)
    else if s.vetoed then Some(CandidateChanged)
    else if s.snapshotKnown then Some(StableDeliveryExists)
    else None
  }

  /** After the reservations began, only a lost award lets the plain card post: not a lost day, and nothing
      after a call may have been made. */
  lemma FallbackOnceReserving(o: Outcome)
    requires o in {Skipped(CapReached), Quarantined, AlreadyReserved, NoClientUnknown, BackedOff, Blocked, RejectedCard,
                   Released, SendUnknown, PostedCard, Crashed}
    ensures FallsBack(o) <==> o == AlreadyReserved
  {
  }

  /** Nothing was posted, attempted or reserved in the channel on the tick's date. */
  predicate DayFree(s: Setting, slots: Slots) { s.recorded == 0 && (s.channel, s.date) !in slots }

  /** A weekday, from the slot on and before 11:30. */
  predicate InWindow(s: Setting) { !s.weekend && s.slot <= s.minute && s.minute < 690 }

  /** The channel, the day and the clock let the tick look for a card. */
  predicate GoesOn(s: Setting, slots: Slots) { !s.guarded && DayFree(s, slots) && (s.force || InWindow(s)) }

  /** Main result, on what the tick was given: when it is skipped and what for, when it goes on to the card,
      and which early endings let the plain daily card post instead. Forcing lifts the weekday and the
      window, and never the cap of one a day. */
  lemma EarlyMeans(s: Setting, slots: Slots)
    ensures s.guarded <==> Early(s, slots) == Some(GuardHeld)
    ensures !s.guarded ==>
      (Early(s, slots).Some? && Early(s, slots).value.Skipped? <==> !DayFree(s, slots) || (!s.force && !InWindow(s)))
    ensures !s.guarded && !DayFree(s, slots) ==> Early(s, slots) == Some(Skipped(CapReached))
    ensures !s.guarded && DayFree(s, slots) && !s.force && s.weekend ==> Early(s, slots) == Some(Skipped(Weekend))
    ensures !s.guarded && DayFree(s, slots) && !s.force && !s.weekend && s.minute >= 690 ==>
      Early(s, slots) == Some(Skipped(MissedCutoff))
    ensures !s.guarded && DayFree(s, slots) && !s.force && !s.weekend && s.minute < 690 && s.minute < s.slot ==>
      Early(s, slots) == Some(Skipped(Waiting))
    ensures Early(s, slots).None? <==>
      && GoesOn(s, slots)
      && s.pick.Some? && !s.workspaceMissing && !s.dryRun && !s.vetoed && !s.snapshotKnown
    ensures GoesOn(s, slots) ==>
      && (Early(s, slots) == Some(NoEligibleCard) <==> s.pick.None?)
      && (Early(s, slots) == Some(NeedsWorkspace) <==> s.pick.Some? && s.workspaceMissing)
      && (Early(s, slots) == Some(Previewed) <==> s.pick.Some? && !s.workspaceMissing && s.dryRun)
      && (Early(s, slots) == Some(CandidateChanged) <==>
            s.pick.Some? && !s.workspaceMissing && !s.dryRun && s.vetoed)
      && (Early(s, slots) == Some(StableDeliveryExists) <==>
            s.pick.Some? && !s.workspaceMissing && !s.dryRun && !s.vetoed && s.snapshotKnown)
    ensures Early(s, slots).Some? && FallsBack(Early(s, slots).value) <==>
      && !s.guarded && DayFree(s, slots)
      && ((!s.force && !s.weekend && s.minute >= 690)
          || ((s.force || InWindow(s))
              && (s.pick.None? || (!s.workspaceMissing && !s.dryRun && (s.vetoed || s.snapshotKnown)))))
  {
  }

  /** An event of another tick, of another kind of delivery, or Slack's doing. */
  predicate Foreign(me: TickId, e: Event) {
    e.Land? || e.Refuse? || e.FollowUpReserve? || e.FollowUpRelease? || e.t != me
  }

  /** The tick's record as others can leave it: only Slack's verdict on an open call may differ. */
  predicate Unharmed(k: Tick, n: Tick) { n == k.(call := n.call) && (k.call != n.call ==> k.call.Open?) }

  lemma ForeignStep(w: World, e: Event, me: TickId)
    requires Apply(w, e).Some? && Foreign(me, e)
    ensures me in Apply(w, e).value.ticks <==> me in w.ticks
    ensures me in w.ticks ==> Unharmed(w.ticks[me], Apply(w, e).value.ticks[me])
  {
    if e.FollowUpReserve? || e.FollowUpRelease? || e.t != me {
      if me in w.ticks { OtherTick(w, e, me); }
      if me in Apply(w, e).value.ticks { UntouchedTick(w, e, Apply(w, e).value, me); }
    }
  }

  lemma {:induction false} ForeignRun(w: World, events: seq<Event>, me: TickId)
    requires Replay(w, events).Some? && forall i :: 0 <= i < |events| ==> Foreign(me, events[i])
    ensures me in Replay(w, events).value.ticks <==> me in w.ticks
    ensures me in w.ticks ==> Unharmed(w.ticks[me], Replay(w, events).value.ticks[me])
    decreases |events|
  {
    if events != [] {
      var most := events[..|events| - 1];
      ForeignRun(w, most, me);
      ForeignStep(Replay(w, most).value, events[|events| - 1], me);
    }
  }

  lemma {:induction false} ReplayTwo(w: World, first: seq<Event>, second: seq<Event>)
    requires Replay(w, first).Some?
    ensures Replay(w, first + second) == Replay(Replay(w, first).value, second)
    decreases |second|
  {
    if second == [] {
      assert first + second == first;
    } else {
      ReplayTwo(w, first, second[..|second| - 1]);
      assert (first + second)[..|first + second| - 1] == first + second[..|second| - 1];
    }
  }

  lemma StillThere(e: Event, before: seq<Event>, after: seq<Event>)
    requires e in before && before <= after
    ensures e in after
  {
    var i :| 0 <= i < |before| && before[i] == e;
    assert after[i] == e;
  }

  predicate Answers(w: World, me: TickId, reply: Reply) {
    me in w.ticks && w.ticks[me].point == Answered(reply) && w.ticks[me].alive && Explains(w.ticks[me].call, reply)
  }

  predicate Fresh(w: World, me: TickId, p: Point) {
    me in w.ticks && w.ticks[me].point == p && w.ticks[me].call.Unsent? && w.ticks[me].alive
  }

  /** The answer an outcome reports. */
  function AnswerBehind(o: Outcome): Option<Reply> {
    match o
    case BackedOff => Some(RateLimited)
    case Blocked => Some(SystemicRefusal)
    case Released => Some(OtherRefusal)
    case RejectedCard => Some(ContentRefusal)
    case PostedCard => Some(Posted)
    case SendUnknown => Some(NoAnswer)
    case _ => None
  }

  /** Without a client nothing was asked of Slack; with one, its absence is not the outcome. */
  predicate Client(o: Outcome, hasClient: bool) {
    (hasClient ==> !o.NoClientUnknown?) && (!hasClient ==> AnswerBehind(o).None?)
  }

  /** What an outcome promises about what the tick left behind. */
  ghost predicate Left(o: Outcome, w: World, events: seq<Event>, me: TickId) {
    && (o.Skipped? && me in w.ticks ==> ReserveSlot(me) in events)
    && (o.AlreadyReserved? ==> DropSlot(me) in events)
    && (o.NoClientUnknown? ==> NoClient(me) in events)
    && (AnswerBehind(o).Some? ==> Answer(me, AnswerBehind(o).value) in events)
    && (o.RejectedCard? || o.SendUnknown? ==> FinishRow(me) in events)
    && (FallsBack(o) || o.Skipped? ==>
          me in w.ticks ==> w.ticks[me].call.Unsent? && !HoldsSlot(w.ticks[me]) && !HoldsRow(w.ticks[me]))
    && (o.BackedOff? || o.Blocked? || o.Released? ==>
          me in w.ticks && w.ticks[me].call.Refused? && !HoldsSlot(w.ticks[me]) && !HoldsRow(w.ticks[me]))
    && (o.Quarantined? ==> me in w.ticks && w.ticks[me].call.Unsent? && !HoldsSlot(w.ticks[me]))
    && (o.RejectedCard? ==>
          me in w.ticks && w.ticks[me].call.Refused? && HoldsSlot(w.ticks[me]) && HoldsRow(w.ticks[me]))
    && (o.PostedCard? ==>
          me in w.ticks && w.ticks[me].call.Landed? && HoldsSlot(w.ticks[me]) && HoldsRow(w.ticks[me]))
    && (o.SendUnknown? || o.NoClientUnknown? ==>
          me in w.ticks && HoldsSlot(w.ticks[me]) && HoldsRow(w.ticks[me]))
  }

  class Scene {
    var world: World
    ghost var start: World
    ghost var events: seq<Event>

    ghost predicate Valid()
      reads this
    {
      Quiet(start) && Replay(start, events) == Some(world)
    }

    constructor (slots: Slots, outbox: Outbox)
      requires forall a, b :: a in slots && b in slots && slots[a] == slots[b] ==> a == b
      ensures Valid() && world == World(slots, outbox, map[])
    {
      world := World(slots, outbox, map[]);
      start, events := World(slots, outbox, map[]), [];
    }

    /** One committed transaction, or one call. */
    method Do(e: Event)
      requires Valid() && Apply(world, e).Some?
      modifies this
      ensures Valid() && start == old(start) && events == old(events) + [e]
      ensures Apply(old(world), e) == Some(world)
    {
      ReplayMore(start, events, e);
      world := Apply(world, e).value;
      events := events + [e];
    }

    /** Everyone else's turn. */
    method Others(me: TickId)
      requires Valid()
      modifies this
      ensures Valid() && start == old(start) && old(events) <= events
      ensures me in world.ticks <==> me in old(world).ticks
      ensures me in world.ticks ==> Unharmed(old(world).ticks[me], world.ticks[me])
    {
      var turns: seq<Event> := *;
      var after := Replay(world, turns);
      if after.Some? && forall i :: 0 <= i < |turns| ==> Foreign(me, turns[i]) {
        ForeignRun(world, turns, me);
        ReplayTwo(start, events, turns);
        world := after.value;
        events := events + turns;
      }
    }

    /** A step of the tick `me`, then everyone else's turn; or the process dies instead. */
    method Act(me: TickId, e: Event, mortal: bool) returns (crashed: bool)
      requires Valid() && Apply(world, e).Some? && me in Apply(world, e).value.ticks
      modifies this
      ensures Valid() && start == old(start) && old(events) <= events
      ensures !crashed ==> me in world.ticks && Unharmed(Apply(old(world), e).value.ticks[me], world.ticks[me])
      ensures !crashed ==> e in events
      ensures crashed ==> mortal
    {
      var struck: bool := *;
      crashed := mortal && struck;
      if crashed {
        if me in world.ticks && world.ticks[me].alive { Do(Die(me)); }
        return;
      }
      Do(e);
      Others(me);
    }

    /** `run`: review, reserve, and at most once post one rich card. */
    method Run(me: TickId, s: Setting) returns (o: Outcome)
      requires Valid() && me !in world.ticks
      modifies this
      ensures Valid() && start == old(start) && old(events) <= events
      ensures Left(o, world, events, me) && (o.Crashed? ==> s.mortal)
      ensures Early(s, old(world).slots).Some? ==> o == Early(s, old(world).slots).value
      ensures Early(s, old(world).slots).None? ==> o.Crashed? || me in world.ticks
      ensures s.dryRun ==> me !in world.ticks
      ensures me in world.ticks ==> GoesOn(s, old(world).slots)
      ensures Client(o, s.hasClient)
      ensures !s.guarded && !s.force && (s.weekend || s.minute < s.slot || s.minute >= 690) ==> o.Skipped?
      ensures GoesOn(s, old(world).slots) && o.Skipped? ==>
        me in world.ticks && o.gate.CapReached? // another tick was faster
      ensures s.force ==> !o.Skipped? || o.gate.CapReached?
      ensures s.bookkeeps && o.PostedCard? ==> FinishRow(me) in events
    {
      EarlyMeans(s, world.slots);
      if s.guarded { return GuardHeld; }
      var gate := GateOf(s, world.slots);
      if !gate.Forced? && !gate.Ready? { return Skipped(gate); }
      if s.pick.None? { return NoEligibleCard; }
      if s.workspaceMissing { return NeedsWorkspace; }
      if s.dryRun { return Previewed; }
      Others(me);
      if s.vetoed { return CandidateChanged; }
      if s.snapshotKnown { return StableDeliveryExists; }
      o := Proceed(me, s);
    }

    /** The chosen card, from here on through the database and Slack. */
    method Proceed(me: TickId, s: Setting) returns (o: Outcome)
      requires Valid() && me !in world.ticks && s.pick.Some?
      modifies this
      ensures Valid() && start == old(start) && old(events) <= events
      ensures Left(o, world, events, me) && (o.Crashed? ==> s.mortal) && (o.Crashed? || me in world.ticks)
      ensures o.Skipped? ==> o.gate.CapReached?
      ensures s.bookkeeps && o.PostedCard? ==> FinishRow(me) in events
      ensures Client(o, s.hasClient)
    {
      var crashed := Act(me, Begin(me, s.channel, s.date, s.pick.value.0, s.pick.value.1, s.renders), s.mortal);
      if crashed { return Crashed; }
      if s.renders { o := Deliver(me, s.hasClient, s.bookkeeps, s.mortal); } else { o := SetAside(me, s.mortal); }
    }

    /** The card could not be built: its award is set aside, and nothing is sent. */
    method SetAside(me: TickId, mortal: bool) returns (o: Outcome)
      requires Valid() && Fresh(world, me, Unrendered)
      modifies this
      ensures Valid() && start == old(start) && old(events) <= events
      ensures Left(o, world, events, me) && (o.Crashed? ==> mortal) && (o.Crashed? || me in world.ticks)
      ensures o.Quarantined? || o.Crashed?
    {
      var crashed := Act(me, ReserveQuarantine(me), mortal);
      if crashed { return Crashed; }
      if world.ticks[me].point.QuarantineHeld? {
        crashed := Act(me, FinishQuarantine(me), mortal);
        if crashed { return Crashed; }
      }
      o := Quarantined;
    }

    /** Reserve the day, reserve the award, send. */
    method Deliver(me: TickId, hasClient: bool, bookkeeps: bool, mortal: bool) returns (o: Outcome)
      requires Valid() && Fresh(world, me, Rendered)
      modifies this
      ensures Valid() && start == old(start) && old(events) <= events
      ensures Left(o, world, events, me) && (o.Crashed? ==> mortal) && (o.Crashed? || me in world.ticks)
      ensures o.Skipped? ==> o.gate.CapReached?
      ensures bookkeeps && o.PostedCard? ==> FinishRow(me) in events
      ensures Client(o, hasClient)
    {
      var crashed := Act(me, ReserveSlot(me), mortal);
      if crashed { return Crashed; }
      if !world.ticks[me].point.SlotHeld? { return Skipped(CapReached); }
      o := ReserveAndSend(me, hasClient, bookkeeps, mortal);
    }

    method ReserveAndSend(me: TickId, hasClient: bool, bookkeeps: bool, mortal: bool) returns (o: Outcome)
      requires Valid() && Fresh(world, me, SlotHeld)
      modifies this
      ensures Valid() && start == old(start) && old(events) <= events
      ensures Left(o, world, events, me) && (o.Crashed? ==> mortal) && (o.Crashed? || me in world.ticks) && !o.Skipped?
      ensures bookkeeps && o.PostedCard? ==> FinishRow(me) in events
      ensures Client(o, hasClient)
    {
      var crashed := Act(me, ReserveRow(me), mortal);
      if crashed { return Crashed; }
      if world.ticks[me].point.Outrun? {
        crashed := Act(me, DropSlot(me), mortal);
        return if crashed then Crashed else AlreadyReserved;
      }
      o := SendCard(me, hasClient, bookkeeps, mortal);
    }

    method SendCard(me: TickId, hasClient: bool, bookkeeps: bool, mortal: bool) returns (o: Outcome)
      requires Valid() && Fresh(world, me, BothHeld)
      modifies this
      ensures Valid() && start == old(start) && old(events) <= events
      ensures Left(o, world, events, me) && (o.Crashed? ==> mortal) && (o.Crashed? || me in world.ticks) && !o.Skipped?
      ensures bookkeeps && o.PostedCard? ==> FinishRow(me) in events
      ensures Client(o, hasClient)
    {
      if !hasClient {
        var died := Act(me, NoClient(me), mortal);
        return if died then Crashed else NoClientUnknown;
      }
      var crashed := Act(me, Send(me), mortal);
      if crashed { return Crashed; }
      o := Conclude(me, bookkeeps, mortal);
    }

    /** What came back from Slack decides what stays reserved. */
    method Conclude(me: TickId, bookkeeps: bool, mortal: bool) returns (o: Outcome)
      requires Valid() && me in world.ticks && world.ticks[me].point.Calling? && world.ticks[me].alive
      modifies this
      ensures Valid() && start == old(start) && old(events) <= events
      ensures Left(o, world, events, me) && (o.Crashed? ==> mortal) && (o.Crashed? || me in world.ticks) && !o.Skipped?
      ensures bookkeeps && o.PostedCard? ==> FinishRow(me) in events
      ensures !o.NoClientUnknown?
    {
      var reply: Reply := *;
      if !Explains(world.ticks[me].call, reply) { reply := NoAnswer; } // Slack does not lie
      var crashed := Act(me, Answer(me, reply), mortal);
      if crashed { return Crashed; }
      if Releases(reply) { o := GiveBack(me, reply, mortal); } else { o := Keep(me, reply, bookkeeps, mortal); }
    }

    /** Slack refused: the award and the day go back. */
    method GiveBack(me: TickId, reply: Reply, mortal: bool) returns (o: Outcome)
      requires Valid() && Answers(world, me, reply) && Releases(reply) && Answer(me, reply) in events
      modifies this
      ensures Valid() && start == old(start) && old(events) <= events
      ensures Left(o, world, events, me) && (o.Crashed? ==> mortal) && (o.Crashed? || me in world.ticks)
      ensures o.Crashed? || o.BackedOff? || o.Blocked? || o.Released?
      ensures !o.NoClientUnknown?
    {
      ghost var before := events;
      var crashed := GiveUpBoth(me, reply, mortal);
      StillThere(Answer(me, reply), before, events);
      if crashed { return Crashed; }
      o := if reply.RateLimited? then BackedOff else if reply.SystemicRefusal? then Blocked else Released;
    }

    method GiveUpBoth(me: TickId, ghost reply: Reply, mortal: bool) returns (crashed: bool)
      requires Valid() && Answers(world, me, reply) && Releases(reply)
      modifies this
      ensures Valid() && start == old(start) && old(events) <= events && (crashed ==> mortal)
      ensures !crashed ==> me in world.ticks && world.ticks[me].call.Refused?
      ensures !crashed ==> !HoldsSlot(world.ticks[me]) && !HoldsRow(world.ticks[me])
    {
      crashed := Act(me, ReleaseRow(me), mortal);
      if crashed { return; }
      crashed := Act(me, ReleaseSlot(me), mortal);
    }

    /** The message landed, may have, or the card itself was refused: everything stays reserved. */
    method Keep(me: TickId, reply: Reply, bookkeeps: bool, mortal: bool) returns (o: Outcome)
      requires Valid() && Answers(world, me, reply) && !Releases(reply) && Answer(me, reply) in events
      modifies this
      ensures Valid() && start == old(start) && old(events) <= events
      ensures Left(o, world, events, me) && (o.Crashed? ==> mortal) && (o.Crashed? || me in world.ticks) && !o.Skipped?
      ensures bookkeeps && o.PostedCard? ==> FinishRow(me) in events
      ensures !o.NoClientUnknown?
    {
      if !reply.Posted? || bookkeeps {
        var crashed := Act(me, FinishRow(me), mortal);
        if crashed { return Crashed; }
      }
      o := match reply case Posted => PostedCard case ContentRefusal => RejectedCard case _ => SendUnknown;
    }
  }
}
