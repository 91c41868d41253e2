/**
 The reminder tables and the worker as the source changes them.
 */
module ReminderDesk {
  import opened Options
  import opened Reminders

  /** What a request for a reminder looks like: whether its cadence and channel are known, its requester,
      channel and thread are named, its subject has text, and its search filters can be read. */
  datatype Ask = Ask(knownCadence: bool, knownVia: bool, addressed: bool, hasSubject: bool, readableFilters: bool)

  datatype Creation = Malformed | HasOptedOut | UnreadableFilters | Created(id: nat)

  predicate WellFormed(ask: Ask) { ask.knownCadence && ask.knownVia && ask.addressed && ask.hasSubject }

  datatype Result = AlreadyDelivered | NotSent | Refused | Ambiguous | Sent

  /** The worker looks for "delivered" in what a channel reported. */
  predicate MentionsDelivered(r: Result) { r.AlreadyDelivered? || r.Sent? }

  /** What the ledger says of a result. */
  function Recorded(r: Result): Outcome {
    match r
    case Sent => Delivered
    case Ambiguous => Unknown
    case _ => Failed
  }

  /** A key was delivered now, or had been claimed before. */
  predicate WentOver(before: Ledger, after: Ledger, k: Key) { k in before || (k in after && after[k].Delivered?) }

  /** Something of this occurrence went out, on any of its channels. */
  predicate Went(before: Ledger, after: Ledger, id: nat, r: Reminder) {
    || (r.via != Email && WentOver(before, after, Key(id, r.due, SlackChannel)))
    || (r.via != Slack && WentOver(before, after, Key(id, r.due, EmailChannel)))
  }

  /** Nothing but this key's row may differ. */
  ghost predicate OnlyKey(before: Ledger, after: Ledger, k: Key) {
    after == before || (k !in before && k in after && after == before[k := after[k]])
  }

  ghost predicate Peek(book: Book) { true }

  /** What always holds of the tables and of the messages sent; the trigger keeps it closed where it is
      only passed along. */
  ghost predicate Sound(book: Book, ledger: Ledger, attempts: seq<Key>) {
    forall b: Book {:trigger Peek(b)} :: Peek(b) ==> LedgerValid(book, ledger) && EachOnce(attempts, ledger)
  }

  lemma Open(book: Book, ledger: Ledger, attempts: seq<Key>)
    requires Sound(book, ledger, attempts)
    ensures LedgerValid(book, ledger) && EachOnce(attempts, ledger)
  {
    assert Peek(book);
  }

  lemma SoundReserve(book: Book, ledger: Ledger, attempts: seq<Key>, id: nat, channel: Channel)
    requires Sound(book, ledger, attempts) && id in book && channel in Channels(book[id].via)
    requires Key(id, book[id].due, channel) !in ledger
    ensures Sound(book, ledger[Key(id, book[id].due, channel) := Reserved], attempts)
    ensures Key(id, book[id].due, channel) !in attempts
  {
    Open(book, ledger, attempts);
    ReserveKeeps(book, ledger, id, channel);
  }

  lemma SoundComplete(book: Book, ledger: Ledger, attempts: seq<Key>, key: Key, outcome: Outcome)
    requires Sound(book, ledger, attempts) && key in ledger && key.reminder in book
    requires key.occurrence == book[key.reminder].due
    ensures Sound(book, ledger[key := outcome], attempts)
  {
    Open(book, ledger, attempts);
    CompleteKeeps(book, ledger, key, outcome);
  }

  lemma SoundHand(book: Book, ledger: Ledger, attempts: seq<Key>, key: Key)
    requires Sound(book, ledger, attempts) && key in ledger && key !in attempts
    ensures Sound(book, ledger, attempts + [key])
  {
    Open(book, ledger, attempts);
  }

  lemma SoundState(book: Book, ledger: Ledger, attempts: seq<Key>, id: nat, state: State)
    requires Sound(book, ledger, attempts) && id in book
    ensures Sound(book[id := book[id].(state := state)], ledger, attempts)
  {
    Open(book, ledger, attempts);
    StateKeeps(book, ledger, id, state);
  }

  lemma SoundAdvance(book: Book, ledger: Ledger, attempts: seq<Key>, id: nat, next: int)
    requires Sound(book, ledger, attempts) && id in book && next > book[id].due
    requires |DeliveredOf(ledger, id)| < MAX_OCCURRENCES
    ensures Sound(book[id := book[id].(due := next)], ledger, attempts)
  {
    Open(book, ledger, attempts);
    AdvanceKeeps(book, ledger, id, next);
  }

  lemma SoundCreate(book: Book, ledger: Ledger, attempts: seq<Key>, id: nat, r: Reminder)
    requires Sound(book, ledger, attempts) && id !in book
    ensures Sound(book[id := r], ledger, attempts)
  {
    Open(book, ledger, attempts);
    CreateKeeps(book, ledger, id, r);
  }

  lemma SoundCancelAll(book: Book, ledger: Ledger, attempts: seq<Key>, user: User)
    requires Sound(book, ledger, attempts)
    ensures Sound(CancelAll(book, user), ledger, attempts)
  {
    Open(book, ledger, attempts);
    CancelAllKeeps(book, ledger, user);
  }

  ghost predicate EachOnce(attempts: seq<Key>, ledger: Ledger) {
    && (forall i, j :: 0 <= i < j < |attempts| ==> attempts[i] != attempts[j])
    && forall k :: k in attempts ==> k in ledger
  }

  predicate SetAside(before: Book, after: Book, optouts: set<(User, Scope)>, id: nat) {
    && id in before && id in after
    && after[id].state == (if OptedOut(optouts, before[id].user) then Cancelled else Broken)
  }

  /** The user's active reminders were cancelled, if the opt-out says so, and nothing else changed. */
  ghost predicate StoppedFor(before: Book, after: Book, user: User, stops: bool) {
    before.Keys == after.Keys && forall id :: id in before ==>
      after[id] == if stops && before[id].user == user && before[id].state == Active
                   then before[id].(state := Cancelled) else before[id]
  }

  function DueAt(book: Book, now: int): set<nat> {
    set id | id in book && book[id].state.Active? && book[id].due <= now
  }

  /** A reminder that may go out: active, due, and its owner has not opted out. */
  ghost predicate Chosen(book: Book, optouts: set<(User, Scope)>, id: nat, now: int) {
    id in book && book[id].state.Active? && book[id].due <= now && !OptedOut(optouts, book[id].user)
  }

  /** Every channel of the occurrence has its row. */
  ghost predicate Claimed(ledger: Ledger, id: nat, r: Reminder) {
    forall c :: c in Channels(r.via) ==> Key(id, r.due, c) in ledger
  }

  /** What `advance` makes of a reminder. */
  ghost predicate Advanced(before: Reminder, after: Reminder, delivered: nat, now: int) {
    if before.cadence.Once? || delivered >= MAX_OCCURRENCES then after == before.(state := Completed)
    else after == before.(due := after.due) && NextAfter(before.due, Step(before.cadence), now, after.due)
  }

  /** This message was handed over now exactly if it was not claimed before and its channel was ready. */
  ghost predicate HandedIf(before: seq<Key>, after: seq<Key>, k: Key, claimed: Ledger, ready: bool)
    requires before <= after
  {
    k !in claimed ==> (k in after[|before|..] <==> ready)
  }

  /** Each channel of the occurrence that was not claimed before: Slack if there is a client, mail always. */
  ghost predicate HandedOver(before: seq<Key>, after: seq<Key>, claimed: Ledger, id: nat, r: Reminder, slackReady: bool)
    requires before <= after
  {
    && (r.via != Email ==> HandedIf(before, after, Key(id, r.due, SlackChannel), claimed, slackReady))
    && (r.via != Slack ==> HandedIf(before, after, Key(id, r.due, EmailChannel), claimed, true))
  }

  /** At most `most` new messages, all of one occurrence of one reminder, none of them claimed before. */
  ghost predicate Made(before: seq<Key>, after: seq<Key>, id: nat, due: int, claimed: Ledger, most: nat) {
    && before <= after && |after| <= |before| + most
    && forall i :: |before| <= i < |after| ==>
         after[i].reminder == id && after[i].occurrence == due && after[i] !in claimed
  }

  lemma MadeTwice(a: seq<Key>, b: seq<Key>, c: seq<Key>, id: nat, due: int, first: Ledger, second: Ledger)
    requires Made(a, b, id, due, first, 1) && Made(b, c, id, due, second, 1) && first.Keys <= second.Keys
    ensures Made(a, c, id, due, first, 2)
  {
  }

  /** Slack first, where it is asked for, then mail. */
  lemma HandedTwice(
    a: seq<Key>, b: seq<Key>, c: seq<Key>, first: Ledger, second: Ledger, id: nat, r: Reminder, slackReady: bool)
    requires a <= b <= c
    requires b == a || b == a + [Key(id, r.due, SlackChannel)]
    requires c == b || c == b + [Key(id, r.due, EmailChannel)]
    requires r.via != Email ==> HandedIf(a, b, Key(id, r.due, SlackChannel), first, slackReady)
    requires r.via != Slack ==> HandedIf(b, c, Key(id, r.due, EmailChannel), second, true)
    requires Key(id, r.due, EmailChannel) in first <==> Key(id, r.due, EmailChannel) in second
    ensures HandedOver(a, c, first, id, r, slackReady)
  {
    assert c[|a|..] == b[|a|..] + c[|b|..];
  }

  class Desk {
    var reminders: Book
    var ledger: Ledger
    var optouts: set<(User, Scope)>
    ghost var attempts: seq<Key> // every message handed to Slack or to the mail service

    ghost predicate Valid()
      reads this
    {
      Sound(reminders, ledger, attempts)
    }

    constructor ()
      ensures Valid() && reminders == map[] && ledger == map[] && attempts == []
    {
      reminders, ledger, optouts, attempts := map[], map[], {}, [];
    }

    /** A mortal worker may die between any two of its steps. */
    method Dies(mortal: bool) returns (dead: bool)
      ensures dead ==> mortal
    {
      var struck: bool := *;
      dead := mortal && struck;
    }

    method NextId() returns (id: nat)
      ensures id !in reminders
    {
      id := 1;
      var todo := reminders.Keys;
      while todo != {}
        invariant todo <= reminders.Keys && forall a :: a in reminders && a !in todo ==> a < id
        decreases todo
      {
        var a :| a in todo;
        if a >= id { id := a + 1; }
        todo := todo - {a};
      }
    }

    /** `create`: a malformed request is refused first, then one of someone who opted out, then one whose
        filters cannot be read. */
    method Create(ask: Ask, user: User, cadence: Cadence, via: Via, due: int) returns (c: Creation)
      requires Valid()
      modifies this`reminders
      ensures Valid() && (old(OptOutsHonoured(reminders, optouts)) ==> OptOutsHonoured(reminders, optouts))
      ensures c.Malformed? <==> !WellFormed(ask)
      ensures c.HasOptedOut? <==> WellFormed(ask) && OptedOut(optouts, user)
      ensures c.Created? <==> WellFormed(ask) && !OptedOut(optouts, user) && ask.readableFilters
      ensures !c.Created? ==> reminders == old(reminders)
      ensures c.Created? ==> c.id !in old(reminders)
      ensures c.Created? ==> reminders == old(reminders)[c.id := Reminder(user, cadence, via, due, Active)]
    {
      if !ask.knownCadence || !ask.knownVia || !ask.addressed || !ask.hasSubject { return Malformed; }
      if OptedOut(optouts, user) { return HasOptedOut; }
      if !ask.readableFilters { return UnreadableFilters; }
      var next := NextId();
      SoundCreate(reminders, ledger, attempts, next, Reminder(user, cadence, via, due, Active));
      reminders := reminders[next := Reminder(user, cadence, via, due, Active)];
      c := Created(next);
    }

    /** `set_optout`: the opt-out and the cancellation of what is running are one step. */
    method SetOptOut(user: User, scope: Scope) returns (cancelled: nat)
      requires Valid()
      modifies this`reminders, this`optouts
      ensures Valid() && (old(OptOutsHonoured(reminders, optouts)) ==> OptOutsHonoured(reminders, optouts))
      ensures optouts == old(optouts) + {(user, scope)}
      ensures var stops := scope.Everything? || scope.RemindersOnly?;
        && reminders == (if stops then CancelAll(old(reminders), user) else old(reminders))
        && cancelled == (if stops then |ActiveOf(old(reminders), user)| else 0)
      ensures (scope.Everything? || scope.RemindersOnly?) ==> OptedOut(optouts, user)
      ensures StoppedFor(old(reminders), reminders, user, scope == Everything || scope == RemindersOnly)
    {
      cancelled := 0;
      if scope.Everything? || scope.RemindersOnly? {
        cancelled := |ActiveOf(reminders, user)|;
        SoundCancelAll(reminders, ledger, attempts, user);
        reminders := CancelAll(reminders, user);
      }
      optouts := optouts + {(user, scope)};
    }

    /** `cancel`: only its owner may, and only while it is active. */
    method Cancel(id: nat, requester: User) returns (ok: bool)
      requires Valid()
      modifies this`reminders
      ensures Valid() && (old(OptOutsHonoured(reminders, optouts)) ==> OptOutsHonoured(reminders, optouts))
      ensures ok <==> id in old(reminders) && old(reminders)[id].user == requester && old(reminders)[id].state.Active?
      ensures reminders == if ok then old(reminders)[id := old(reminders)[id].(state := Cancelled)] else old(reminders)
    {
      if id !in reminders || reminders[id].user != requester || !reminders[id].state.Active? { return false; }
      SoundState(reminders, ledger, attempts, id, Cancelled);
      reminders := reminders[id := reminders[id].(state := Cancelled)];
      ok := true;
    }

    /** `due`: active reminders whose time has come, oldest first. */
    method Due(now: int) returns (ids: seq<nat>)
      ensures forall id :: id in ids <==> id in DueAt(reminders, now)
      ensures forall i :: 0 <= i < |ids| ==> ids[i] in reminders
      ensures forall i, j :: 0 <= i < j < |ids| ==>
        ids[i] != ids[j] && reminders[ids[i]].due <= reminders[ids[j]].due
    {
      ids := [];
      var todo := DueAt(reminders, now);
      while todo != {}
        invariant forall id :: id in DueAt(reminders, now) <==> id in todo || id in ids
        invariant forall i :: 0 <= i < |ids| ==> ids[i] in reminders && ids[i] !in todo
        invariant forall i, j :: 0 <= i < j < |ids| ==>
          ids[i] != ids[j] && reminders[ids[i]].due <= reminders[ids[j]].due
        invariant forall i, id :: 0 <= i < |ids| && id in todo ==> reminders[ids[i]].due <= reminders[id].due
        decreases todo
      {
        var next := Oldest(todo);
        ids := ids + [next];
        todo := todo - {next};
      }
    }

    method Oldest(among: set<nat>) returns (next: nat)
      requires among != {} && among <= reminders.Keys
      ensures next in among && forall a :: a in among ==> reminders[next].due <= reminders[a].due
    {
      next :| next in among;
      var todo := among - {next};
      while todo != {}
        invariant todo <= among && next in among
        invariant forall a :: a in among && a !in todo ==> reminders[next].due <= reminders[a].due
        decreases todo
      {
        var a :| a in todo;
        if reminders[a].due < reminders[next].due { next := a; }
        todo := todo - {a};
      }
    }

    /** `reserve`: the insert is the claim. */
    method Reserve(id: nat, channel: Channel) returns (claimed: bool)
      requires Valid() && id in reminders && channel in Channels(reminders[id].via)
      modifies this`ledger
      ensures Valid() && (claimed <==> Key(id, reminders[id].due, channel) !in old(ledger))
      ensures claimed ==> Key(id, reminders[id].due, channel) !in attempts
      ensures ledger == if claimed then old(ledger)[Key(id, reminders[id].due, channel) := Reserved] else old(ledger)
    {
      claimed := Key(id, reminders[id].due, channel) !in ledger;
      if claimed {
        SoundReserve(reminders, ledger, attempts, id, channel);
        ledger := ledger[Key(id, reminders[id].due, channel) := Reserved];
      }
    }

    /** `complete`. */
    method RecordOutcome(key: Key, outcome: Outcome)
      requires Valid() && key in ledger && key.reminder in reminders
      requires key.occurrence == reminders[key.reminder].due
      modifies this`ledger
      ensures Valid() && ledger == old(ledger)[key := outcome]
    {
      SoundComplete(reminders, ledger, attempts, key, outcome);
      ledger := ledger[key := outcome];
    }

    /** The message leaves. */
    ghost method Hand(key: Key)
      requires Valid() && key in ledger && key !in attempts
      modifies this`attempts
      ensures Valid() && attempts == old(attempts) + [key]
    {
      SoundHand(reminders, ledger, attempts, key);
      attempts := attempts + [key];
    }

    /** `_deliver_slack` and `_deliver_email`: reserve, send, record. The process may die after any of
        them; what the service did with the message is anyone's guess. */
    method DeliverOn(id: nat, channel: Channel, ready: bool, mortal: bool) returns (r: Result, crashed: bool)
      requires Valid() && id in reminders && channel in Channels(reminders[id].via)
      modifies this`ledger, this`attempts
      ensures Valid() && (crashed ==> mortal)
      ensures var key := Key(id, reminders[id].due, channel);
        && OnlyKey(old(ledger), ledger, key) && (r.AlreadyDelivered? <==> key in old(ledger)) && key in ledger
        && (attempts == old(attempts) || (key !in old(ledger) && attempts == old(attempts) + [key]))
        && (!crashed && key !in old(ledger) && ready ==> attempts == old(attempts) + [key])
        && (!ready ==> attempts == old(attempts))
        && (!crashed && key !in old(ledger) ==> ledger[key] == Recorded(r) && (r.NotSent? <==> !ready))
    {
      var key := Key(id, reminders[id].due, channel);
      crashed := false;
      var claimed := Reserve(id, channel);
      if !claimed { return AlreadyDelivered, crashed; }
      r := NotSent;
      crashed := Dies(mortal);
      if crashed { return; }
      if ready {
        Hand(key);
        crashed := Dies(mortal);
        if crashed { return; }
        var answer: Result := *;
        r := if answer.Sent? || answer.Refused? then answer else Ambiguous;
      }
      RecordOutcome(key, Recorded(r));
    }

    /** `advance`: retire the reminder, or move it to its next occurrence after `now`. */
    method Advance(id: nat, now: int)
      requires Valid() && id in reminders
      modifies this`reminders
      ensures Valid() && id in reminders && reminders == old(reminders)[id := reminders[id]]
      ensures Advanced(old(reminders)[id], reminders[id], |DeliveredOf(ledger, id)|, now)
    {
      var r := reminders[id];
      var sent := |set k | k in ledger && k.reminder == id && ledger[k].Delivered?|;
      assert sent == |DeliveredOf(ledger, id)|;
      if r.cadence.Once? || sent >= MAX_OCCURRENCES { Retire(id); } else { Rearm(id, now); }
    }

    method Retire(id: nat)
      requires Valid() && id in reminders
      modifies this`reminders
      ensures Valid() && reminders == old(reminders)[id := old(reminders)[id].(state := Completed)]
    {
      SoundState(reminders, ledger, attempts, id, Completed);
      reminders := reminders[id := reminders[id].(state := Completed)];
    }

    method Rearm(id: nat, now: int)
      requires Valid() && id in reminders && |DeliveredOf(ledger, id)| < MAX_OCCURRENCES
      modifies this`reminders
      ensures Valid() && id in reminders
      ensures NextAfter(old(reminders)[id].due, Step(old(reminders)[id].cadence), now, reminders[id].due)
      ensures reminders == old(reminders)[id := old(reminders)[id].(due := reminders[id].due)]
    {
      var r := reminders[id];
      var next := FirstAfter(r.due, Step(r.cadence), now);
      NextIsUnique(r.due, Step(r.cadence), now, next, next);
      SoundAdvance(reminders, ledger, attempts, id, next);
      reminders := reminders[id := r.(due := next)];
    }

    /** One channel of a due reminder; `went` if it was delivered, or claimed before. */
    method SendOver(id: nat, channel: Channel, ready: bool, mortal: bool) returns (went: bool, crashed: bool)
      requires Valid() && id in reminders && channel in Channels(reminders[id].via)
      modifies this`ledger, this`attempts
      ensures Valid() && Made(old(attempts), attempts, id, reminders[id].due, old(ledger), 1)
      ensures crashed ==> mortal
      ensures OnlyKey(old(ledger), ledger, Key(id, reminders[id].due, channel))
      ensures !crashed ==> Key(id, reminders[id].due, channel) in ledger
      ensures !crashed ==> (went <==> WentOver(old(ledger), ledger, Key(id, reminders[id].due, channel)))
      ensures attempts == old(attempts) || attempts == old(attempts) + [Key(id, reminders[id].due, channel)]
      ensures !crashed ==>
        HandedIf(old(attempts), attempts, Key(id, reminders[id].due, channel), old(ledger), ready)
    {
      var result;
      result, crashed := DeliverOn(id, channel, ready, mortal);
      went := MentionsDelivered(result);
    }

    /** One due reminder over each of its channels. */
    method SendAll(id: nat, slackReady: bool, mortal: bool) returns (anyDelivered: bool, crashed: bool)
      requires Valid() && id in reminders
      modifies this`ledger, this`attempts
      ensures Valid() && Made(old(attempts), attempts, id, reminders[id].due, old(ledger), 2)
      ensures crashed ==> mortal
      ensures !crashed ==> Claimed(ledger, id, reminders[id])
      ensures !crashed ==> (anyDelivered <==> Went(old(ledger), ledger, id, reminders[id]))
      ensures !crashed ==> HandedOver(old(attempts), attempts, old(ledger), id, reminders[id], slackReady)
    {
      var r := reminders[id];
      anyDelivered, crashed := false, false;
      ghost var a0, l0 := attempts, ledger;
      if r.via.Slack? || r.via.Both? {
        anyDelivered, crashed := SendOver(id, SlackChannel, slackReady, mortal);
        if crashed { return; }
      }
      ghost var a1, l1 := attempts, ledger;
      if r.via.Email? || r.via.Both? {
        var went;
        went, crashed := SendOver(id, EmailChannel, true, mortal);
        anyDelivered := anyDelivered || went;
      }
      MadeTwice(a0, a1, attempts, id, r.due, l0, l1);
      if !crashed { HandedTwice(a0, a1, attempts, l0, l1, id, r, slackReady); }
    }

    /** One due reminder, then on to its next occurrence if anything was, or had already been, delivered. */
    method Deliver(id: nat, slackReady: bool, now: int, mortal: bool) returns (crashed: bool)
      requires Valid() && id in reminders
      modifies this`reminders, this`ledger, this`attempts
      ensures Valid() && reminders.Keys == old(reminders).Keys
      ensures Made(old(attempts), attempts, id, old(reminders)[id].due, old(ledger), 2)
      ensures (crashed ==> mortal) && (!crashed ==> Claimed(ledger, id, old(reminders)[id]))
      ensures !crashed ==>
        if Went(old(ledger), ledger, id, old(reminders)[id])
        then Advanced(old(reminders)[id], reminders[id], |DeliveredOf(ledger, id)|, now)
        else reminders == old(reminders)
    {
      var anyDelivered;
      anyDelivered, crashed := SendAll(id, slackReady, mortal);
      if crashed { return; }
      crashed := Dies(mortal);
      if !crashed && anyDelivered { Advance(id, now); }
    }

    /** `run`: at most one reminder goes out, a due one whose owner has not opted out. When none does,
        every due reminder was set aside: cancelled if its owner opted out, failed if it would not render. */
    method Run(now: int, later: int, slackReady: bool, dryRun: bool, mortal: bool)
      returns (crashed: bool, ghost chosen: Option<nat>)
      requires Valid()
      modifies this`reminders, this`ledger, this`attempts
      ensures Valid() && reminders.Keys == old(reminders).Keys && (crashed ==> mortal)
      ensures dryRun || chosen.None? ==> ledger == old(ledger) && attempts == old(attempts)
      ensures chosen.Some? ==> Chosen(old(reminders), optouts, chosen.value, now)
      ensures chosen.Some? ==>
        Made(old(attempts), attempts, chosen.value, old(reminders)[chosen.value].due, old(ledger), 2)
      ensures chosen.Some? && !crashed && !dryRun ==> Claimed(ledger, chosen.value, old(reminders)[chosen.value])
      ensures chosen.None? && !crashed ==>
        forall id :: id in DueAt(old(reminders), now) ==> SetAside(old(reminders), reminders, optouts, id)
    {
      crashed, chosen := false, None;
      var ids := Due(now);
      for i := 0 to |ids|
        invariant Valid() && reminders.Keys == old(reminders).Keys && !crashed && chosen.None?
        invariant attempts == old(attempts) && ledger == old(ledger)
        invariant forall j :: i <= j < |ids| ==> reminders[ids[j]] == old(reminders)[ids[j]]
        invariant forall j :: 0 <= j < i ==> SetAside(old(reminders), reminders, optouts, ids[j])
      {
        var id := ids[i];
        var r := reminders[id];
        assert id in ids;
        if OptedOut(optouts, r.user) {
          var ok := Cancel(id, r.user);
        } else {
          var renders: bool := *;
          if renders {
            chosen := Some(id);
            if !dryRun { crashed := Deliver(id, slackReady, later, mortal); }
            return;
          }
          SoundState(reminders, ledger, attempts, id, Broken);
          reminders := reminders[id := r.(state := Broken)];
        }
        crashed := Dies(mortal);
        if crashed { return; }
      }
    }
  }

  /** Main result: whatever was created, sent, cancelled and left half done, a reminder records at most 12
      deliveries, or 13 over both channels, and every message ever sent was claimed first, once. */
  lemma DeskKeepsItsPromises(desk: Desk, id: nat)
    requires desk.Valid() && id in desk.reminders
    ensures |DeliveredOf(desk.ledger, id)| <= if desk.reminders[id].via.Both? then 13 else 12
    ensures forall i, j :: 0 <= i < j < |desk.attempts| ==> desk.attempts[i] != desk.attempts[j]
    ensures forall k :: k in desk.attempts ==> k in desk.ledger
  {
    Open(desk.reminders, desk.ledger, desk.attempts);
    DeliveriesAreBounded(desk.reminders, desk.ledger, id);
  }
}
