/**
 The memory table as the assistant changes it: remembering, correcting, recalling, forgetting,
 purging, and capturing several facts from one message.
 */
module MemoryStore {
  import opened Options
  import opened UserMemory

  const RECALL_LIMIT := 40
  const MAX_CAPTURE_CANDIDATES := 20

  datatype Stored = Kept(id: Id) | Known | Refused

  /** One fact the model proposes. `sound` says that its kind is known, its text is not empty, and the
      quote appears in the message, is not negated there, and supports the fact. */
  datatype Item = Item(target: Option<Id>, kind: nat, fact: nat, evidence: nat, sound: bool)

  // ---------------------------------------------------------------- quotes

  const NEGATION_WINDOW := 4

  ghost predicate OccursAt(quote: seq<nat>, source: seq<nat>, at: nat) {
    at + |quote| <= |source| && source[at..at + |quote|] == quote
  }

  /** A negator stands among the four words before this place. */
  ghost predicate NegatedAt(source: seq<nat>, negators: set<nat>, at: nat) {
    exists k :: 0 <= k < |source| && at - NEGATION_WINDOW <= k < at && source[k] in negators
  }

  /** One of the four words before this place is a negator. */
  ghost predicate WithinFour(source: seq<nat>, negators: set<nat>, at: nat) {
    || (1 <= at <= |source| && source[at - 1] in negators)
    || (2 <= at <= |source| + 1 && source[at - 2] in negators)
    || (3 <= at <= |source| + 2 && source[at - 3] in negators)
    || (4 <= at <= |source| + 3 && source[at - 4] in negators)
  }

  lemma FourWords(source: seq<nat>, negators: set<nat>, at: nat)
    ensures NegatedAt(source, negators, at) <==> WithinFour(source, negators, at)
  {
    if NegatedAt(source, negators, at) {
      var k :| 0 <= k < |source| && at - NEGATION_WINDOW <= k < at && source[k] in negators;
      assert k == at - 1 || k == at - 2 || k == at - 3 || k == at - 4;
    }
    if WithinFour(source, negators, at) {
      var k :| 0 <= k < |source| && at - 4 <= k < at && source[k] in negators;
    }
  }

  /** `inverts_meaning`: some occurrence of the quote follows closely on a negator. */
  method InvertsMeaning(quote: seq<nat>, source: seq<nat>, negators: set<nat>) returns (inverts: bool)
    ensures inverts <==> quote != [] && exists at: nat :: OccursAt(quote, source, at) && NegatedAt(source, negators, at)
    ensures inverts <==>
      quote != [] && exists at: nat :: OccursAt(quote, source, at) && WithinFour(source, negators, at)
  {
    forall at: nat ensures NegatedAt(source, negators, at) <==> WithinFour(source, negators, at) {
      FourWords(source, negators, at);
    }
    if source == [] || quote == [] { return false; }
    var start := 0;
    while start + |quote| <= |source|
      invariant start <= |source| + 1
      invariant forall at: nat :: at < start && OccursAt(quote, source, at) ==> !NegatedAt(source, negators, at)
    {
      if source[start..start + |quote|] == quote {
        var k := if start < NEGATION_WINDOW then 0 else start - NEGATION_WINDOW;
        while k < start
          invariant k <= start && (start < NEGATION_WINDOW || start - NEGATION_WINDOW <= k)
          invariant forall j :: 0 <= j < |source| && start - NEGATION_WINDOW <= j < k ==> source[j] !in negators
        {
          if source[k] in negators {
            assert OccursAt(quote, source, start) && NegatedAt(source, negators, start);
            return true;
          }
          k := k + 1;
        }
      }
      start := start + 1;
    }
    inverts := false;
  }

  // ---------------------------------------------------------------- what an operation touches

  lemma FiledStays(before: Table, after: Table, user: nat, offered: set<Id>, row: Row)
    requires Touches(before, after, user, offered) && OnFile(before, row)
    ensures OnFile(after, row)
  {
    var a :| Holder(before, row, a) && before[a].expires > row.recorded;
    assert TouchedWell(before, after, user, offered, a);
    assert Holder(after, row, a);
  }

  /** A replacement must name an offered memory that is the only offered one of its kind. */
  predicate Offered(item: Item, active: seq<Id>, kinds: seq<nat>)
    requires |kinds| == |active|
  {
    item.target.Some? ==>
      item.target.value in active && |set i | 0 <= i < |active| && kinds[i] == item.kind| == 1
      && exists i :: 0 <= i < |active| && active[i] == item.target.value && kinds[i] == item.kind
  }

  /** A replacement is offered exactly if its target is, is of the proposed kind, and no other offered memory
      is of that kind. */
  lemma OfferedMeans(item: Item, active: seq<Id>, kinds: seq<nat>)
    requires |kinds| == |active| && item.target.Some?
    ensures Offered(item, active, kinds) <==>
      exists i :: 0 <= i < |active| && active[i] == item.target.value && kinds[i] == item.kind
        && forall j :: 0 <= j < |active| && j != i ==> kinds[j] != item.kind
  {
    var same := set i | 0 <= i < |active| && kinds[i] == item.kind;
    if Offered(item, active, kinds) {
      var i :| 0 <= i < |active| && active[i] == item.target.value && kinds[i] == item.kind;
      assert i in same && |same - {i}| == 0;
      forall j | 0 <= j < |active| && j != i ensures kinds[j] != item.kind { assert j !in same - {i}; }
    }
    if exists i :: 0 <= i < |active| && active[i] == item.target.value && kinds[i] == item.kind
         && forall j :: 0 <= j < |active| && j != i ==> kinds[j] != item.kind {
      var i :| 0 <= i < |active| && active[i] == item.target.value && kinds[i] == item.kind
        && forall j :: 0 <= j < |active| && j != i ==> kinds[j] != item.kind;
      assert same == {i};
    }
  }

  function RowFor(user: nat, item: Item, moment: Instant): Row {
    NewRow(user, item.kind, item.fact, item.evidence, moment)
  }

  /** The fact of `row` is on file, not expired. */
  ghost predicate OnFile(t: Table, row: Row) { exists a :: Holder(t, row, a) && t[a].expires > row.recorded }

  /** One row was added, or an expired one with the same fact became current again. */
  ghost predicate Remembers(before: Table, after: Table, row: Row, id: Id) {
    && (id in before ==> SameFact(before[id], row) && before[id].expires <= row.recorded)
    && after.Keys == before.Keys + {id} && SameFact(after[id], row) && Active(after[id], row.recorded)
    && after[id].evidence == row.evidence && after[id].recorded == row.recorded
    && forall a :: a in before && a != id ==> after[a] == before[a]
  }

  lemma RememberTouches(before: Table, after: Table, row: Row, id: Id, offered: set<Id>)
    requires Remembers(before, after, row, id)
    ensures Touches(before, after, row.user, offered)
  {
  }

  lemma SupersedeTouches(before: Table, during: Table, user: nat, old_: Id, new_: Id, offered: set<Id>)
    requires Touches(before, during, user, offered) && old_ in offered && old_ in during && during[old_].user == user
    ensures Touches(before, Superseded(during, old_, new_), user, offered)
  {
    forall x: Id ensures TouchedWell(before, Superseded(during, old_, new_), user, offered, x) {
      assert TouchedWell(before, during, user, offered, x);
    }
  }

  lemma OneActiveLeft(t: Table, old_: Id, new_: Id, moment: Instant)
    requires old_ in t && new_ in t && old_ != new_ && t[old_].user == t[new_].user && t[old_].kind == t[new_].kind
    requires Active(t[old_], moment) && Active(t[new_], moment)
    requires |ActiveOfKind(t, t[old_].user, t[old_].kind, moment)| == 2
    ensures ActiveOfKind(Superseded(t, old_, new_), t[old_].user, t[old_].kind, moment) == {new_}
  {
    var active := ActiveOfKind(t, t[old_].user, t[old_].kind, moment);
    assert {old_, new_} <= active;
    assert |active - {old_, new_}| == 0;
    assert ActiveOfKind(Superseded(t, old_, new_), t[old_].user, t[old_].kind, moment) == active - {old_};
  }

  /** Only rows of one user were added or changed, none is gone, and only offered ones were retired. */
  ghost predicate Touches(before: Table, after: Table, user: nat, offered: set<Id>) {
    forall a: Id {:trigger TouchedWell(before, after, user, offered, a)} :: TouchedWell(before, after, user, offered, a)
  }

  ghost predicate TouchedWell(before: Table, after: Table, user: nat, offered: set<Id>, a: Id) {
    && (a in before ==>
          && a in after && SameFact(before[a], after[a]) && before[a].expires <= after[a].expires
          && (before[a].user != user ==> after[a] == before[a])
          && (before[a].supersededBy.None? && after[a].supersededBy.Some? ==> a in offered))
    && (a in after && a !in before ==>
          after[a].user == user && (after[a].supersededBy.Some? ==> a in offered))
  }

  lemma TouchesNothing(t: Table, user: nat, offered: set<Id>)
    ensures Touches(t, t, user, offered)
  {
  }

  lemma TouchesTwice(a: Table, b: Table, c: Table, user: nat, offered: set<Id>)
    requires Touches(a, b, user, offered) && Touches(b, c, user, offered)
    ensures Touches(a, c, user, offered)
  {
    forall x: Id ensures TouchedWell(a, c, user, offered, x) {
      assert TouchedWell(a, b, user, offered, x) && TouchedWell(b, c, user, offered, x);
    }
  }

  // ---------------------------------------------------------------- capturing

  /** The kind of each offered memory. */
  function KindsOf(t: Table, active: seq<Id>): (kinds: seq<nat>)
    ensures |kinds| == |active|
  {
    seq(|active|, i requires 0 <= i < |active| => if active[i] in t then t[active[i]].kind else 0)
  }

  /** What is offered to the model: the freshest memories that can be recalled, no more than 20. */
  ghost predicate FreshestOf(t: Table, user: nat, moment: Instant, offered: seq<Id>) {
    && |offered| <= 20
    && (forall i :: 0 <= i < |offered| ==> offered[i] in Visible(t, user, moment))
    && (forall a, i | a in Visible(t, user, moment) && a !in offered && 0 <= i < |offered| ::
          t[a].recorded <= t[offered[i]].recorded)
    && (|offered| < 20 ==> forall a :: a in Visible(t, user, moment) ==> a in offered)
  }

  /** The new memory, and with a target also its correction. */
  ghost predicate KeptWhole(
    before: Table, after: Table, row: Row, target: Option<Id>, correction: Correction, moment: Instant, id: Id,
    during: Table)
  {
    && Remembers(before, during, row, id)
    && match target
       case None => after == during
       case Some(old_) =>
         if MaySupersede(during, correction, old_, id, moment) then after == Superseded(during, old_, id)
         else after == before
  }

  /** One proposed fact: nothing if it is refused or known, otherwise kept whole, or not at all because its
      correction does not apply. */
  ghost predicate Captures(
    before: Table, after: Table, user: nat, item: Item, correction: Correction, moment: Instant)
  {
    if user == 0 || !item.sound || OnFile(before, RowFor(user, item, moment)) then after == before
    else exists id, during ::
      KeptWhole(before, after, RowFor(user, item, moment), item.target, correction, moment, id, during)
  }

  /** How often the table changed. */
  ghost function Changes(trail: seq<Table>): nat {
    if |trail| <= 1 then 0
    else
      Changes(trail[..|trail| - 1]) + if trail[|trail| - 1] != trail[|trail| - 2] then 1 else 0
  }

  lemma ChangesMore(trail: seq<Table>, t: Table)
    requires trail != []
    ensures Changes(trail + [t]) == Changes(trail) + if t != trail[|trail| - 1] then 1 else 0
  {
    assert (trail + [t])[..|trail|] == trail;
  }

  /** What remembering added, with its correction if it has one, is one kept fact. */
  lemma WholeCaptures(
    before: Table, during: Table, after: Table, user: nat, item: Item, correction: Correction, moment: Instant, id: Id)
    requires user != 0 && item.sound && !OnFile(before, RowFor(user, item, moment))
    requires KeptWhole(before, after, RowFor(user, item, moment), item.target, correction, moment, id, during)
    ensures Captures(before, after, user, item, correction, moment)
    ensures after == before <==>
      item.target.Some? && !MaySupersede(during, correction, item.target.value, id, moment)
  {
    assert id in before ==> before[id].expires < during[id].expires;
  }

  lemma CapturesFiles(before: Table, after: Table, user: nat, item: Item, correction: Correction, moment: Instant)
    requires Captures(before, after, user, item, correction, moment)
    ensures user != 0 && item.sound && item.target.None? ==> OnFile(after, RowFor(user, item, moment))
  {
    var row := RowFor(user, item, moment);
    if user != 0 && item.sound && !OnFile(before, row) && item.target.None? {
      var id, during :| KeptWhole(before, after, row, item.target, correction, moment, id, during);
      assert Holder(after, row, id);
    }
  }

  /** Item by item: what was not offered is skipped, the rest is captured. */
  ghost predicate Trail(
    trail: seq<Table>, user: nat, items: seq<Item>, active: seq<Id>, kinds: seq<nat>, correction: Correction,
    moment: Instant)
    requires |kinds| == |active|
  {
    |trail| == |items| + 1 && forall i :: 0 <= i < |items| ==>
      if Offered(items[i], active, kinds) then Captures(trail[i], trail[i + 1], user, items[i], correction, moment)
      else trail[i + 1] == trail[i]
  }

  lemma TrailMore(
    trail: seq<Table>, t: Table, user: nat, items: seq<Item>, active: seq<Id>, kinds: seq<nat>, correction: Correction,
    moment: Instant, item: Item)
    requires |kinds| == |active| && Trail(trail, user, items, active, kinds, correction, moment)
    requires if Offered(item, active, kinds) then Captures(trail[|items|], t, user, item, correction, moment)
             else t == trail[|items|]
    ensures Trail(trail + [t], user, items + [item], active, kinds, correction, moment)
  {
    forall i | 0 <= i < |items| + 1
      ensures if Offered((items + [item])[i], active, kinds)
              then Captures((trail + [t])[i], (trail + [t])[i + 1], user, (items + [item])[i], correction, moment)
              else (trail + [t])[i + 1] == (trail + [t])[i]
    {
      if i < |items| { assert (items + [item])[i] == items[i]; }
    }
  }

  /** The sound additions among these items are on file. */
  ghost predicate AllFiled(t: Table, user: nat, items: seq<Item>, moment: Instant) {
    forall i :: 0 <= i < |items| && user != 0 && items[i].sound && items[i].target.None? ==>
      OnFile(t, RowFor(user, items[i], moment))
  }

  lemma FiledMore(
    before: Table, after: Table, user: nat, items: seq<Item>, moment: Instant, offered: set<Id>, item: Item)
    requires AllFiled(before, user, items, moment) && Touches(before, after, user, offered)
    requires user != 0 && item.sound && item.target.None? ==> OnFile(after, RowFor(user, item, moment))
    ensures AllFiled(after, user, items + [item], moment)
  {
    forall i | 0 <= i < |items| && user != 0 && items[i].sound && items[i].target.None?
      ensures OnFile(after, RowFor(user, items[i], moment))
    {
      FiledStays(before, after, user, offered, RowFor(user, items[i], moment));
    }
  }

  ghost predicate HeldUnexpired(t: Table, user: nat, kind: nat, fact: nat, moment: Instant) {
    exists a :: a in t && moment < t[a].expires && t[a].user == user && t[a].kind == kind && t[a].fact == fact
  }

  // ---------------------------------------------------------------- the table

  lemma SameExisting(t: Table, row: Row, id: Id)
    requires UniqueFacts(t) && Holder(t, row, id)
    ensures Existing(t, row) == Some(id)
  {
  }

  lemma NoneExisting(t: Table, row: Row)
    requires forall a :: a in t ==> !SameFact(t[a], row)
    ensures Existing(t, row) == None
  {
    assert forall a :: !Holder(t, row, a);
  }

  class Memories {
    var rows: Table

    constructor ()
      ensures rows == map[] && Valid(rows)
    {
      rows := map[];
      assert Ranked(map[], map[]);
    }

    /** The id SQLite gives the next row. */
    method NextId() returns (id: Id)
      ensures id !in rows && forall a :: a in rows ==> a < id
    {
      id := 1;
      var todo := rows.Keys;
      while todo != {}
        invariant todo <= rows.Keys && forall a :: a in rows && a !in todo ==> a < id
        decreases todo
      {
        var a :| a in todo;
        if a >= id { id := a + 1; }
        todo := todo - {a};
      }
    }

    method Find(row: Row) returns (found: Option<Id>)
      requires UniqueFacts(rows)
      ensures found == Existing(rows, row)
      ensures found.Some? ==> Holder(rows, row, found.value)
    {
      var todo := rows.Keys;
      while todo != {}
        invariant todo <= rows.Keys && forall a :: a in rows && a !in todo ==> !SameFact(rows[a], row)
        decreases todo
      {
        var a :| a in todo;
        if SameFact(rows[a], row) {
          SameExisting(rows, row, a);
          return Some(a);
        }
        todo := todo - {a};
      }
      NoneExisting(rows, row);
      found := None;
    }

    /** `remember`: a new row, an expired one re-armed, or nothing. */
    method Remember(user: nat, item: Item, moment: Instant) returns (s: Stored)
      requires Valid(rows)
      modifies this
      ensures Valid(rows)
      ensures s.Refused? <==> user == 0 || !item.sound
      ensures s.Kept? ==> Remembers(old(rows), rows, RowFor(user, item, moment), s.id)
      ensures !s.Kept? ==> rows == old(rows)
      ensures !s.Refused? ==>
        rows == Remembered(old(rows), if s.Kept? then s.id else 0, RowFor(user, item, moment))
      ensures s.Known? <==> user != 0 && item.sound && OnFile(old(rows), RowFor(user, item, moment))
      ensures s.Known? <==> user != 0 && item.sound && HeldUnexpired(old(rows), user, item.kind, item.fact, moment)
      ensures s.Kept? ==> rows[s.id] == Row(
          user, item.kind, item.fact, item.evidence, moment, moment + 182 * 24 * 3600, None)
      ensures !s.Refused? ==> OnFile(rows, RowFor(user, item, moment))
    {
      if user == 0 || !item.sound { return Refused; }
      var row := RowFor(user, item, moment);
      var found := Find(row);
      if found.None? {
        var id := NextId();
        assert forall a :: a in rows ==> !Holder(rows, row, a);
        InsertKeepsValid(rows, id, row);
        rows := rows[id := row];
        return Kept(id);
      }
      if rows[found.value].expires > moment { return Known; }
      RearmKeepsValid(rows, found.value, item.evidence, moment);
      rows := rows[found.value := Rearmed(rows[found.value], item.evidence, moment)];
      s := Kept(found.value);
    }

    /** `supersede`. Where it applies, the newer row becomes the one active memory of its kind. */
    method Supersede(correction: Correction, old_: Id, new_: Id, moment: Instant) returns (applied: bool)
      requires Valid(rows)
      modifies this
      ensures Valid(rows)
      ensures applied <==> MaySupersede(old(rows), correction, old_, new_, moment)
      ensures applied <==> CorrectsAlone(old(rows), correction, old_, new_, moment)
      ensures rows == if applied then Superseded(old(rows), old_, new_) else old(rows)
      ensures applied ==> ActiveOfKind(rows, rows[new_].user, rows[new_].kind, moment) == {new_}
    {
      applied := MaySupersede(rows, correction, old_, new_, moment);
      SupersedesExactly(rows, correction, old_, new_, moment);
      if applied {
        SupersedeKeepsValid(rows, old_, new_);
        OneActiveLeft(rows, old_, new_, moment);
        rows := Superseded(rows, old_, new_);
      }
    }

    method Forget(user: nat)
      requires Valid(rows)
      modifies this
      ensures Valid(rows) && rows == Forgotten(old(rows), user)
      ensures forall a :: a in rows <==> a in old(rows) && old(rows)[a].user != user
    {
      ForgetKeepsValid(rows, user);
      rows := Forgotten(rows, user);
    }

    method Purge(moment: Instant)
      requires Valid(rows)
      modifies this
      ensures Valid(rows) && rows == Purged(old(rows), moment)
      ensures forall a :: a in rows <==> a in old(rows) && moment < old(rows)[a].expires
    {
      PurgeKeepsValid(rows, moment);
      rows := Purged(rows, moment);
    }

    /** `recall`: what is visible, freshest first, at most `limit` rows. */
    method Recall(user: nat, moment: Instant, limit: nat) returns (ids: seq<Id>)
      ensures |ids| <= limit && forall i :: 0 <= i < |ids| ==> ids[i] in rows && ids[i] in Visible(rows, user, moment)
      ensures forall i, j :: 0 <= i < j < |ids| ==> ids[i] != ids[j] && rows[ids[i]].recorded >= rows[ids[j]].recorded
      ensures |ids| < limit ==> forall a :: a in Visible(rows, user, moment) ==> a in ids
      ensures forall a, i :: a in Visible(rows, user, moment) && a !in ids && 0 <= i < |ids| ==>
        rows[a].recorded <= rows[ids[i]].recorded
    {
      ids := [];
      var todo := Visible(rows, user, moment);
      while todo != {} && |ids| < limit
        invariant todo <= Visible(rows, user, moment) && |ids| <= limit
        invariant forall a :: a in Visible(rows, user, moment) <==> a in todo || a in ids
        invariant forall i :: 0 <= i < |ids| ==> ids[i] in rows && ids[i] !in todo
        invariant forall i, j :: 0 <= i < j < |ids| ==>
          ids[i] != ids[j] && rows[ids[i]].recorded >= rows[ids[j]].recorded
        invariant forall a, i :: a in todo && 0 <= i < |ids| ==> rows[a].recorded <= rows[ids[i]].recorded
        decreases todo
      {
        var next := Freshest(todo);
        ids := ids + [next];
        todo := todo - {next};
      }
    }

    method Freshest(among: set<Id>) returns (next: Id)
      requires among != {} && among <= rows.Keys
      ensures next in among && forall a :: a in among ==> rows[a].recorded <= rows[next].recorded
    {
      next :| next in among;
      var todo := among - {next};
      while todo != {}
        invariant todo <= among && next in among
        invariant forall a :: a in among && a !in todo ==> rows[a].recorded <= rows[next].recorded
        decreases todo
      {
        var a :| a in todo;
        if rows[a].recorded > rows[next].recorded { next := a; }
        todo := todo - {a};
      }
    }

    /** The fact of an item, if it is new or was expired. */
    method Add(user: nat, item: Item, moment: Instant, ghost offered: set<Id>) returns (added: Option<Id>)
      requires Valid(rows)
      modifies this
      ensures Valid(rows) && Touches(old(rows), rows, user, offered)
      ensures added.None? ==> rows == old(rows)
      ensures added.Some? ==> added.value in rows && rows[added.value].user == user
      ensures added.Some? ==> Remembers(old(rows), rows, RowFor(user, item, moment), added.value)
      ensures added.Some? <==> user != 0 && item.sound && !OnFile(old(rows), RowFor(user, item, moment))
    {
      ghost var before := rows;
      var stored := Remember(user, item, moment);
      if !stored.Kept? { return None; }
      RememberTouches(before, rows, RowFor(user, item, moment), stored.id, offered);
      added := Some(stored.id);
    }

    /** The correction of a captured fact. */
    method Correct(
      ghost before: Table, old_: Id, new_: Id, ghost user: nat, ghost offered: set<Id>, correction: Correction,
      moment: Instant) returns (applied: bool)
      requires Valid(rows) && Touches(before, rows, user, offered) && old_ in offered
      requires new_ in rows && rows[new_].user == user
      modifies this
      ensures Valid(rows) && Touches(before, rows, user, offered)
      ensures applied <==> MaySupersede(old(rows), correction, old_, new_, moment)
      ensures rows == if applied then Superseded(old(rows), old_, new_) else old(rows)
    {
      ghost var during := rows;
      applied := Supersede(correction, old_, new_, moment);
      if applied { SupersedeTouches(before, during, user, old_, new_, offered); }
    }

    /** One proposed fact of `capture`: kept with its correction, or rolled back as a whole. */
    method CaptureItem(
      user: nat, item: Item, ghost offered: set<Id>, correction: Correction, moment: Instant) returns (kept: bool)
      requires Valid(rows) && (item.target.Some? ==> item.target.value in offered)
      modifies this
      ensures Valid(rows) && (kept <==> rows != old(rows))
      ensures Touches(old(rows), rows, user, offered)
      ensures Captures(old(rows), rows, user, item, correction, moment)
    {
      var before := rows;
      var added := Add(user, item, moment, offered);
      if added.None? { return false; }
      ghost var during := rows;
      kept := true;
      if item.target.Some? {
        kept := Correct(before, item.target.value, added.value, user, offered, correction, moment);
      }
      if !kept {
        rows := before;
        TouchesNothing(before, user, offered);
      }
      WholeCaptures(before, during, rows, user, item, correction, moment, added.value);
    }

    /** What the model is offered. */
    method Candidates(user: nat, moment: Instant) returns (active: seq<Id>)
      ensures FreshestOf(rows, user, moment, active)
    {
      active := Recall(user, moment, RECALL_LIMIT);
      if |active| > MAX_CAPTURE_CANDIDATES { active := active[..MAX_CAPTURE_CANDIDATES]; }
    }

    /** A proposed fact whose replacement target was offered, or that has none. */
    method CaptureOffered(
      user: nat, item: Item, active: seq<Id>, kinds: seq<nat>, correction: Correction, moment: Instant)
      returns (kept: bool)
      requires Valid(rows) && |kinds| == |active|
      modifies this
      ensures Valid(rows) && (kept <==> rows != old(rows))
      ensures Touches(old(rows), rows, user, (set a | a in active))
      ensures if Offered(item, active, kinds) then Captures(old(rows), rows, user, item, correction, moment)
              else rows == old(rows)
      ensures user != 0 && item.sound && item.target.None? ==> OnFile(rows, RowFor(user, item, moment))
    {
      kept := false;
      if Offered(item, active, kinds) {
        ghost var before := rows;
        kept := CaptureItem(user, item, (set a | a in active), correction, moment);
        CapturesFiles(before, rows, user, item, correction, moment);
      } else {
        TouchesNothing(rows, user, (set a | a in active));
      }
    }

    /** `capture`: each proposed fact in turn, kept whole or not at all. A replacement may name only one of
        the freshest memories, which were offered to the model. `trail` is the table between the items. */
    method Capture(user: nat, items: seq<Item>, correction: Correction, moment: Instant)
      returns (kept: nat, ghost offered: seq<Id>, ghost trail: seq<Table>)
      requires Valid(rows)
      modifies this
      ensures Valid(rows) && FreshestOf(old(rows), user, moment, offered)
      ensures Trail(trail, user, items, offered, KindsOf(old(rows), offered), correction, moment)
      ensures trail[0] == old(rows) && trail[|items|] == rows && kept == Changes(trail)
      ensures Touches(old(rows), rows, user, (set a | a in offered))
      ensures AllFiled(rows, user, items, moment)
    {
      kept := 0;
      var active := Candidates(user, moment);
      var kinds := KindsOf(rows, active);
      offered, trail := active, [rows];
      ghost var candidates := set a | a in active;
      TouchesNothing(rows, user, candidates);
      for i := 0 to |items|
        invariant Valid(rows) && Trail(trail, user, items[..i], active, kinds, correction, moment)
        invariant trail[0] == old(rows) && trail[i] == rows && kept == Changes(trail)
        invariant Touches(old(rows), rows, user, candidates)
        invariant AllFiled(rows, user, items[..i], moment)
      {
        ghost var before := rows;
        var ok := CaptureOffered(user, items[i], active, kinds, correction, moment);
        if ok { kept := kept + 1; }
        TouchesTwice(old(rows), before, rows, user, candidates);
        FiledMore(before, rows, user, items[..i], moment, candidates, items[i]);
        assert items[..i + 1] == items[..i] + [items[i]];
        ChangesMore(trail, rows);
        TrailMore(trail, rows, user, items[..i], active, kinds, correction, moment, items[i]);
        trail := trail + [rows];
      }
      assert items[..|items|] == items;
    }
  }
}
