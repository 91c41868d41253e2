/**
 Reminders a colleague asked for: scheduling, opting out, and the worker that reserves each
 occurrence before it sends it. Workers run one after another here, and may die anywhere.

 Instants are seconds; an occurrence is named by the instant it was due.
 */
module Reminders {
  import opened SetSums

  const DAY := 86400
  const MAX_OCCURRENCES := 12

  type User = nat

  datatype Cadence = Once | Daily | Weekly
  datatype Via = Slack | Email | Both
  datatype Channel = SlackChannel | EmailChannel
  datatype State = Active | Completed | Cancelled | Broken

  datatype Reminder = Reminder(user: User, cadence: Cadence, via: Via, due: int, state: State)

  datatype Key = Key(reminder: nat, occurrence: int, channel: Channel)
  datatype Outcome = Reserved | Delivered | Failed | Unknown
  datatype Scope = Everything | RemindersOnly | OtherScope(name: nat)

  type Book = map<nat, Reminder>
  type Ledger = map<Key, Outcome>

  function Step(c: Cadence): int { if c.Daily? then DAY else 7 * DAY }

  function Channels(v: Via): set<Channel> {
    match v
    case Slack => {SlackChannel}
    case Email => {EmailChannel}
    case Both => {SlackChannel, EmailChannel}
  }

  // ---------------------------------------------------------------- the next occurrence

  /** `due + k * step` for some k >= 1, later than `now`, and the first such instant. */
  ghost predicate NextAfter(due: int, step: int, now: int, next: int) {
    exists k: int :: k >= 1 && next == due + k * step && next > now && (k == 1 || next - step <= now)
  }

  /** The loop of `advance`: it ends, and keeps the rhythm of the original due time. */
  method FirstAfter(due: int, step: int, now: int) returns (next: int)
    requires step > 0
    ensures NextAfter(due, step, now, next)
  {
    next := due + step;
    ghost var k := 1;
    while next <= now
      invariant k >= 1 && next == due + k * step && (k == 1 || next - step <= now)
      decreases now - next
    {
      next := next + step;
      k := k + 1;
    }
  }

  lemma Multiple(k: int, step: int)
    requires k >= 1 && step > 0
    ensures k * step >= step
  {
    assert k * step == (k - 1) * step + step;
    assert (k - 1) * step >= 0;
  }

  lemma EarlierMultiple(step: int, j: int, k: int)
    requires step > 0 && j < k
    ensures j * step + step <= k * step
  {
    Multiple(k - j, step);
    assert (k - j) * step == k * step - j * step;
  }

  lemma NextIsUnique(due: int, step: int, now: int, a: int, b: int)
    requires step > 0 && NextAfter(due, step, now, a) && NextAfter(due, step, now, b)
    ensures a == b && a > due
  {
    var j: int :| j >= 1 && a == due + j * step && a > now && (j == 1 || a - step <= now);
    var k: int :| k >= 1 && b == due + k * step && b > now && (k == 1 || b - step <= now);
    Multiple(j, step);
    if j < k { EarlierMultiple(step, j, k); }
    if k < j { EarlierMultiple(step, k, j); }
  }

  /** Main result: a daily reminder keeps its time of day, a weekly one also its day of the week, and the
      next one is the first after now, never skipped over and never twice. */
  lemma RhythmIsKept(due: int, now: int, daily: int, weekly: int)
    requires NextAfter(due, Step(Daily), now, daily) && NextAfter(due, Step(Weekly), now, weekly)
    ensures (daily - due) % 86400 == 0 && daily > due && daily > now && (daily - 86400 <= now || daily == due + 86400)
    ensures (weekly - due) % 604800 == 0 && weekly > due && weekly > now
    ensures weekly - 604800 <= now || weekly == due + 604800
  {
    var j: int :| j >= 1 && daily == due + j * Step(Daily) && daily > now && (j == 1 || daily - Step(Daily) <= now);
    var k: int :|
      k >= 1 && weekly == due + k * Step(Weekly) && weekly > now && (k == 1 || weekly - Step(Weekly) <= now);
    assert daily - due == j * 86400 && weekly - due == k * 604800;
    assert (j * 86400) % 86400 == 0 && (k * 604800) % 604800 == 0;
  }

  // ---------------------------------------------------------------- counting deliveries

  ghost function DeliveredOf(ledger: Ledger, r: nat): set<Key> {
    set k | k in ledger && k.reminder == r && ledger[k].Delivered?
  }

  ghost function DeliveredElsewhere(ledger: Ledger, r: nat, due: int): set<Key> {
    set k | k in ledger && k.reminder == r && ledger[k].Delivered? && k.occurrence != due
  }

  ghost function DeliveredHere(ledger: Ledger, r: nat, due: int): set<Key> {
    set k | k in ledger && k.reminder == r && ledger[k].Delivered? && k.occurrence == due
  }

  /** Occurrences lie at or before the due time, on the reminder's own channels; deliveries at earlier
      occurrences leave room for one more. */
  ghost predicate Counted(ledger: Ledger, id: nat, r: Reminder) {
    && (forall k :: k in ledger && k.reminder == id ==> k.occurrence <= r.due && k.channel in Channels(r.via))
    && |DeliveredElsewhere(ledger, id, r.due)| < MAX_OCCURRENCES
  }

  ghost predicate LedgerValid(book: Book, ledger: Ledger) {
    && (forall k :: k in ledger ==> k.reminder in book)
    && forall id :: id in book ==> Counted(ledger, id, book[id])
  }

  predicate OptedOut(optouts: set<(User, Scope)>, user: User) {
    (user, Everything) in optouts || (user, RemindersOnly) in optouts
  }

  /** Opting out of everything or of reminders counts, opting out of anything else does not. */
  lemma OptOutMeans(optouts: set<(User, Scope)>, user: User)
    ensures OptedOut(optouts, user) <==>
      exists scope :: (user, scope) in optouts && (scope == Everything || scope == RemindersOnly)
  {
    if (user, Everything) in optouts { assert (user, Everything) in optouts; }
    if (user, RemindersOnly) in optouts { assert (user, RemindersOnly) in optouts; }
  }

  /** Nobody who opted out has an active reminder. */
  ghost predicate OptOutsHonoured(book: Book, optouts: set<(User, Scope)>) {
    forall id :: id in book && book[id].state.Active? ==> !OptedOut(optouts, book[id].user)
  }

  function ActiveOf(book: Book, user: User): set<nat> {
    set id | id in book && book[id].user == user && book[id].state.Active?
  }

  function CancelAll(book: Book, user: User): Book {
    map id | id in book ::
      if book[id].user == user && book[id].state.Active? then book[id].(state := Cancelled) else book[id]
  }

  lemma CancelAllKeeps(book: Book, ledger: Ledger, user: User)
    requires LedgerValid(book, ledger)
    ensures LedgerValid(CancelAll(book, user), ledger)
  {
    forall id | id in book ensures Counted(ledger, id, CancelAll(book, user)[id]) {
      assert Counted(ledger, id, book[id]);
    }
  }

  lemma OnChannels(ledger: Ledger, id: nat, r: Reminder)
    requires Counted(ledger, id, r)
    ensures |DeliveredHere(ledger, id, r.due)| <= |Channels(r.via)|
  {
    var all := set c | c in Channels(r.via) :: Key(id, r.due, c);
    assert DeliveredHere(ledger, id, r.due) <= all by {
      forall k | k in DeliveredHere(ledger, id, r.due) ensures k in all {
        assert k == Key(id, r.due, k.channel);
      }
    }
    KeyCount(id, r);
    SubsetSize(DeliveredHere(ledger, id, r.due), all);
  }

  lemma KeyCount(id: nat, r: Reminder)
    ensures |set c | c in Channels(r.via) :: Key(id, r.due, c)| == |Channels(r.via)|
  {
    match r.via
    case Slack => assert (set c | c in Channels(r.via) :: Key(id, r.due, c)) == {Key(id, r.due, SlackChannel)};
    case Email => assert (set c | c in Channels(r.via) :: Key(id, r.due, c)) == {Key(id, r.due, EmailChannel)};
    case Both =>
      assert (set c | c in Channels(r.via) :: Key(id, r.due, c))
          == {Key(id, r.due, SlackChannel), Key(id, r.due, EmailChannel)};
  }

  /** Main result: a reminder's ledger records at most 12 deliveries, or 13 when it uses both channels. */
  lemma DeliveriesAreBounded(book: Book, ledger: Ledger, id: nat)
    requires LedgerValid(book, ledger) && id in book
    ensures |DeliveredOf(ledger, id)| <= MAX_OCCURRENCES - 1 + |Channels(book[id].via)|
    ensures |DeliveredOf(ledger, id)| <= if book[id].via.Both? then 13 else 12
  {
    var r := book[id];
    OnChannels(ledger, id, r);
    assert DeliveredOf(ledger, id) == DeliveredElsewhere(ledger, id, r.due) + DeliveredHere(ledger, id, r.due);
  }

  // ---------------------------------------------------------------- what the steps keep

  lemma ReserveKeeps(book: Book, ledger: Ledger, id: nat, channel: Channel)
    requires LedgerValid(book, ledger) && id in book && channel in Channels(book[id].via)
    requires Key(id, book[id].due, channel) !in ledger
    ensures LedgerValid(book, ledger[Key(id, book[id].due, channel) := Reserved])
  {
    var next := ledger[Key(id, book[id].due, channel) := Reserved];
    forall i | i in book ensures Counted(next, i, book[i]) {
      assert Counted(ledger, i, book[i]);
      assert DeliveredElsewhere(next, i, book[i].due) == DeliveredElsewhere(ledger, i, book[i].due);
    }
  }

  lemma CompleteKeeps(book: Book, ledger: Ledger, key: Key, outcome: Outcome)
    requires LedgerValid(book, ledger) && key in ledger && key.occurrence == book[key.reminder].due
    ensures LedgerValid(book, ledger[key := outcome])
  {
    var next := ledger[key := outcome];
    forall i | i in book ensures Counted(next, i, book[i]) {
      assert Counted(ledger, i, book[i]);
      assert DeliveredElsewhere(next, i, book[i].due) == DeliveredElsewhere(ledger, i, book[i].due);
    }
  }

  /** Moving on to a later occurrence keeps room for it, as long as fewer than 12 were delivered. */
  lemma AdvanceKeeps(book: Book, ledger: Ledger, id: nat, next: int)
    requires LedgerValid(book, ledger) && id in book && next > book[id].due
    requires |DeliveredOf(ledger, id)| < MAX_OCCURRENCES
    ensures LedgerValid(book[id := book[id].(due := next)], ledger)
  {
    var after := book[id := book[id].(due := next)];
    forall i | i in after ensures Counted(ledger, i, after[i]) {
      assert Counted(ledger, i, book[i]);
      if i == id { assert DeliveredElsewhere(ledger, id, next) == DeliveredOf(ledger, id); }
    }
  }

  lemma StateKeeps(book: Book, ledger: Ledger, id: nat, state: State)
    requires LedgerValid(book, ledger) && id in book
    ensures LedgerValid(book[id := book[id].(state := state)], ledger)
  {
    var after := book[id := book[id].(state := state)];
    forall i | i in after ensures Counted(ledger, i, after[i]) { assert Counted(ledger, i, book[i]); }
  }

  lemma CreateKeeps(book: Book, ledger: Ledger, id: nat, r: Reminder)
    requires LedgerValid(book, ledger) && id !in book
    ensures LedgerValid(book[id := r], ledger)
  {
    var after := book[id := r];
    forall i | i in after ensures Counted(ledger, i, after[i]) {
      if i != id { assert Counted(ledger, i, book[i]); }
      else { assert DeliveredElsewhere(ledger, id, r.due) == {}; }
    }
  }
}
