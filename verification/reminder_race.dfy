/**
 Reminder workers in any interleaving: whatever a worker believes about a reminder, it sends
 only what it has claimed, and nobody can claim an occurrence and channel twice.
 */
module ReminderRace {
  import opened Options
  import opened Reminders

  datatype Phase = Idle | Claimed(key: Key) | Handed(key: Key)

  datatype World = World(ledger: Ledger, workers: map<nat, Phase>, attempts: seq<Key>)

  /** A worker may hold a stale copy of the reminder, so the key it reserves is any key. */
  datatype Event =
    | Reserve(w: nat, key: Key)
    | Send(w: nat)
    | Complete(w: nat, outcome: Outcome)
    | Die(w: nat)

  function PhaseOf(v: World, w: nat): Phase { if w in v.workers then v.workers[w] else Idle }

  function Apply(v: World, e: Event): Option<World> {
    match e
    case Reserve(w, key) =>
      if !PhaseOf(v, w).Idle? then None
      else if key in v.ledger then Some(v) // the insert is refused: "already delivered"
      else Some(v.(ledger := v.ledger[key := Reserved], workers := v.workers[w := Claimed(key)]))
    case Send(w) =>
      if PhaseOf(v, w).Claimed? then
        Some(v.(workers := v.workers[w := Handed(v.workers[w].key)], attempts := v.attempts + [v.workers[w].key]))
      else None
    case Complete(w, outcome) =>
      if PhaseOf(v, w).Idle? then None
      else Some(v.(ledger := v.ledger[v.workers[w].key := outcome], workers := v.workers[w := Idle]))
    case Die(w) => Some(v.(workers := v.workers[w := Idle]))
  }

  function Replay(v: World, events: seq<Event>): Option<World>
    decreases |events|
  {
    if events == [] then Some(v)
    else
      match Replay(v, events[..|events| - 1])
      case None => None
      case Some(u) => Apply(u, events[|events| - 1])
  }

  ghost predicate Inv(v: World) {
    && (forall i, j :: 0 <= i < j < |v.attempts| ==> v.attempts[i] != v.attempts[j])
    && (forall k :: k in v.attempts ==> k in v.ledger)
    && (forall w :: w in v.workers && !v.workers[w].Idle? ==> v.workers[w].key in v.ledger)
    && (forall w :: w in v.workers && v.workers[w].Claimed? ==> v.workers[w].key !in v.attempts)
    && (forall w, u :: w in v.workers && u in v.workers && w != u && !v.workers[w].Idle? && !v.workers[u].Idle? ==>
          v.workers[w].key != v.workers[u].key)
  }

  lemma StepKeepsInv(v: World, e: Event)
    requires Inv(v) && Apply(v, e).Some?
    ensures Inv(Apply(v, e).value)
  {
    var u := Apply(v, e).value;
    if e.Send? {
      assert forall k :: k in u.attempts <==> k in v.attempts || k == v.workers[e.w].key;
    }
  }

  /** Main result: for any interleaving and any deaths, each reminder occurrence is handed to each channel
      at most once. */
  lemma {:induction false} AtMostOneAttempt(ledger: Ledger, events: seq<Event>)
    requires Replay(World(ledger, map[], []), events).Some?
    ensures Inv(Replay(World(ledger, map[], []), events).value)
    ensures var attempts := Replay(World(ledger, map[], []), events).value.attempts;
      forall i, j :: 0 <= i < j < |attempts| ==> attempts[i] != attempts[j]
    decreases |events|
  {
    if events != [] {
      AtMostOneAttempt(ledger, events[..|events| - 1]);
      StepKeepsInv(Replay(World(ledger, map[], []), events[..|events| - 1]).value, events[|events| - 1]);
    }
  }

  /** A claimed occurrence is never attempted again: a failed delivery is not retried. */
  lemma {:induction false} ClaimedIsNeverRetried(v: World, events: seq<Event>, key: Key)
    requires Inv(v) && Replay(v, events).Some? && key in v.ledger
    requires forall w :: w in v.workers && v.workers[w].Claimed? ==> v.workers[w].key != key
    ensures var u := Replay(v, events).value;
      && Inv(u) && key in u.ledger && (key in u.attempts ==> key in v.attempts)
      && forall w :: w in u.workers && u.workers[w].Claimed? ==> u.workers[w].key != key
    decreases |events|
  {
    if events != [] {
      ClaimedIsNeverRetried(v, events[..|events| - 1], key);
      StepKeepsInv(Replay(v, events[..|events| - 1]).value, events[|events| - 1]);
    }
  }
}
