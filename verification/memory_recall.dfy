/**
 What becomes of a fact that is said again: whether it can be recalled depends on what happened to it
 before, over any history of operations.
 */
module MemoryRecall {
  import opened Options
  import opened UserMemory

  /** The table before operation `k`, from an empty one. */
  ghost function Before(correction: Correction, ops: seq<Op>, k: nat): Table
    requires k <= |ops|
  {
    Replay(map[], correction, ops[..k])
  }

  lemma StepAt(correction: Correction, ops: seq<Op>, k: nat)
    requires k < |ops|
    ensures Before(correction, ops, k + 1) == Apply(Before(correction, ops, k), correction, ops[k])
  {
    assert ops[..k + 1][..k] == ops[..k];
  }

  /** Operation `k` corrected this fact: its row was replaced by a newer one. */
  ghost predicate RetiredAt(correction: Correction, ops: seq<Op>, k: nat, fact: Row)
    requires k < |ops|
  {
    var t := Before(correction, ops, k);
    ops[k].Supersede? && MaySupersede(t, correction, ops[k].old_, ops[k].new_, ops[k].moment)
    && SameFact(t[ops[k].old_], fact)
  }

  ghost function RowOf(op: Op): Row
    requires op.Remember?
  {
    NewRow(op.user, op.kind, op.fact, op.evidence, op.moment)
  }

  /** Operation `k` put this fact on file, as a new row or by re-arming its expired one. */
  ghost predicate FiledAt(correction: Correction, ops: seq<Op>, k: nat, fact: Row)
    requires k < |ops|
  {
    var t := Before(correction, ops, k);
    ops[k].Remember? && SameFact(RowOf(ops[k]), fact) && Lapsed(t, fact, ops[k].moment)
  }

  /** No row holds this fact any more: it was never there, is gone, or has expired. */
  ghost predicate Lapsed(t: Table, fact: Row, moment: Instant) {
    forall a :: Holder(t, fact, a) ==> t[a].expires <= moment
  }

  /** The fact was corrected, and has not been put on file again since. */
  ghost predicate Withdrawn(correction: Correction, ops: seq<Op>, fact: Row) {
    exists k: nat :: k < |ops| && RetiredAt(correction, ops, k, fact)
      && forall j :: k < j < |ops| ==> !FiledAt(correction, ops, j, fact)
  }

  /** SQLite gives new rows ids of their own. */
  ghost predicate FreshIds(correction: Correction, ops: seq<Op>) {
    forall k :: 0 <= k < |ops| && ops[k].Remember? ==> ops[k].id !in Before(correction, ops, k)
  }

  // ---------------------------------------------------------------- one operation

  /** Repeating a fact changes no other fact's row. */
  lemma RememberedElsewhere(t: Table, id: Id, row: Row, a: Id)
    requires UniqueFacts(t) && id !in t && a in Remembered(t, id, row) && !SameFact(Remembered(t, id, row)[a], row)
    ensures a in t && Remembered(t, id, row)[a] == t[a]
  {
  }

  /** A repeated fact is held, unexpired, and superseded only if it already was and had not expired. */
  lemma RememberedHere(t: Table, id: Id, row: Row, a: Id)
    requires UniqueFacts(t) && id !in t && Holder(Remembered(t, id, row), row, a)
    requires row.supersededBy.None?
    ensures Remembered(t, id, row)[a].supersededBy.Some? <==>
      Holder(t, row, a) && t[a].expires > row.recorded && t[a].supersededBy.Some?
    ensures (exists b :: Holder(t, row, b) && t[b].expires > row.recorded) <==>
      Holder(t, row, a) && t[a].expires > row.recorded
  {
    if a !in t { assert forall b :: !Holder(t, row, b); }
  }

  /** Whether the row of a held fact is superseded after one more operation. */
  lemma HeldStep(t: Table, correction: Correction, op: Op, fact: Row, a: Id)
    requires Valid(t) && (op.Remember? ==> op.id !in t)
    requires Holder(Apply(t, correction, op), fact, a)
    ensures Apply(t, correction, op)[a].supersededBy.Some? <==>
      (op.Supersede? && MaySupersede(t, correction, op.old_, op.new_, op.moment) && SameFact(t[op.old_], fact))
      || (Holder(t, fact, a) && t[a].supersededBy.Some?
          && !(op.Remember? && SameFact(RowOf(op), fact) && Lapsed(t, fact, op.moment)))
  {
    match op
    case Remember(id, _, _, _, _, _) =>
      var row := RowOf(op);
      if SameFact(row, fact) { RememberedHere(t, id, row, a); } else { RememberedElsewhere(t, id, row, a); }
    case Supersede(o, n, moment) =>
    case Forget(user) =>
    case Purge(moment) =>
  }

  // ---------------------------------------------------------------- histories

  /** One operation more. */
  lemma WithdrawnStep(correction: Correction, ops: seq<Op>, op: Op, fact: Row)
    ensures var k := |ops|;
      Withdrawn(correction, ops + [op], fact) <==>
        RetiredAt(correction, ops + [op], k, fact)
        || (Withdrawn(correction, ops, fact) && !FiledAt(correction, ops + [op], k, fact))
  {
    var more := ops + [op];
    forall k: nat | k < |ops|
      ensures RetiredAt(correction, more, k, fact) == RetiredAt(correction, ops, k, fact)
      ensures FiledAt(correction, more, k, fact) == FiledAt(correction, ops, k, fact)
    {
      assert more[..k] == ops[..k] && more[k] == ops[k];
    }
    if Withdrawn(correction, ops, fact) && !FiledAt(correction, more, |ops|, fact) {
      var k: nat :| k < |ops| && RetiredAt(correction, ops, k, fact)
        && forall j :: k < j < |ops| ==> !FiledAt(correction, ops, j, fact);
      assert RetiredAt(correction, more, k, fact);
    }
  }

  /** In every reachable table, a row is superseded exactly if its fact was corrected and has not been put
      on file again since. */
  lemma {:induction false} SupersededIsWithdrawn(correction: Correction, ops: seq<Op>, fact: Row, a: Id)
    requires FreshIds(correction, ops) && Holder(Replay(map[], correction, ops), fact, a)
    ensures Replay(map[], correction, ops)[a].supersededBy.Some? <==> Withdrawn(correction, ops, fact)
    decreases |ops|
  {
    if ops != [] {
      var most, op := ops[..|ops| - 1], ops[|ops| - 1];
      var t := Replay(map[], correction, most);
      assert most + [op] == ops && ops[..|most|] == most;
      FreshBefore(correction, most, op);
      ReachableIsValid(correction, most);
      WithdrawnStep(correction, most, op, fact);
      HeldStep(t, correction, op, fact, a);
      HeldBefore(t, correction, op, fact, a);
      if Holder(t, fact, a) { SupersededIsWithdrawn(correction, most, fact, a); }
    }
  }

  lemma FreshBefore(correction: Correction, most: seq<Op>, op: Op)
    requires FreshIds(correction, most + [op])
    ensures FreshIds(correction, most) && (op.Remember? ==> op.id !in Replay(map[], correction, most))
  {
    var ops := most + [op];
    assert ops[..|most|] == most && ops[|most|] == op;
    forall k | 0 <= k < |most| && most[k].Remember? ensures most[k].id !in Before(correction, most, k) {
      assert ops[..k] == most[..k] && ops[k] == most[k];
    }
  }

  /** A fact that is held was held before, unless this operation put it on file. */
  lemma HeldBefore(t: Table, correction: Correction, op: Op, fact: Row, a: Id)
    requires Valid(t) && (op.Remember? ==> op.id !in t) && Holder(Apply(t, correction, op), fact, a)
    ensures Holder(t, fact, a) || (op.Remember? && SameFact(RowOf(op), fact) && forall b :: !Holder(t, fact, b))
  {
    if op.Remember? {
      if SameFact(RowOf(op), fact) {
        if !Holder(t, fact, a) { assert forall b :: Holder(t, fact, b) <==> Holder(t, RowOf(op), b); }
      } else {
        RememberedElsewhere(t, op.id, RowOf(op), a);
      }
    }
  }

  /** Someone can recall this fact. */
  ghost predicate Recallable(t: Table, fact: Row, moment: Instant) {
    exists a :: a in Visible(t, fact.user, moment) && SameFact(t[a], fact)
  }

  /** Main result: after a fact is remembered, over any history, it can be recalled exactly unless it was
      corrected earlier and has not been put on file again since. Saying it again does not bring back a
      corrected fact that is still on file. */
  lemma RememberedIsRecalledUnlessWithdrawn(correction: Correction, ops: seq<Op>, op: Op)
    requires op.Remember? && FreshIds(correction, ops + [op])
    ensures Recallable(Replay(map[], correction, ops + [op]), RowOf(op), op.moment) <==>
      !Withdrawn(correction, ops + [op], RowOf(op))
  {
    var t := Replay(map[], correction, ops);
    var row, after := RowOf(op), Replay(map[], correction, ops + [op]);
    assert (ops + [op])[..|ops|] == ops;
    FreshBefore(correction, ops, op);
    ReachableIsValid(correction, ops);
    ReachableIsValid(correction, ops + [op]);
    var a := HeldAfter(t, op.id, row);
    SupersededIsWithdrawn(correction, ops + [op], row, a);
    assert a in Visible(after, row.user, op.moment) <==> after[a].supersededBy.None?;
  }

  lemma HeldAfter(t: Table, id: Id, row: Row) returns (a: Id)
    requires UniqueFacts(t) && id !in t && row.expires == row.recorded + RETENTION
    ensures Holder(Remembered(t, id, row), row, a) && Remembered(t, id, row)[a].expires > row.recorded
  {
    match Existing(t, row)
    case None => a := id;
    case Some(b) => a := b;
  }

  lemma Played(correction: Correction, ops: seq<Op>, op: Op)
    ensures Replay(map[], correction, ops + [op]) == Apply(Replay(map[], correction, ops), correction, op)
  {
    assert (ops + [op])[..|ops|] == ops;
  }

  /** One user's two facts of one kind, the older corrected by the newer. */
  function Corrected(old_: Row, new_: Row): Table { map[1 := old_.(supersededBy := Some(2)), 2 := new_] }

  lemma CorrectedReplays(correction: Correction, user: nat, kind: nat, o: nat, n: nat, e: nat, f: nat, moment: Instant)
    requires o != n && correction(f, n, o)
    ensures Replay(
        map[], correction,
        [] + [Remember(1, user, kind, o, e, moment)] + [Remember(2, user, kind, n, f, moment)]
        + [Supersede(1, 2, moment)]) ==
      Corrected(NewRow(user, kind, o, e, moment), NewRow(user, kind, n, f, moment))
  {
    var older, newer := NewRow(user, kind, o, e, moment), NewRow(user, kind, n, f, moment);
    var first, second := Remember(1, user, kind, o, e, moment), Remember(2, user, kind, n, f, moment);
    Played(correction, [], first);
    assert forall a :: !Holder(map[], older, a);
    assert Replay(map[], correction, [] + [first]) == map[1 := older];
    Played(correction, [] + [first], second);
    assert forall a :: !Holder(map[1 := older], newer, a);
    assert Replay(map[], correction, [] + [first] + [second]) == map[1 := older, 2 := newer];
    Played(correction, [] + [first] + [second], Supersede(1, 2, moment));
    assert ActiveOfKind(map[1 := older, 2 := newer], user, kind, moment) == {1, 2};
  }

  /** So it happens: a fact is remembered, corrected, and remembered again; it is on file, unexpired, known,
      and nobody can recall it. */
  lemma SaidAgainInVain(correction: Correction, user: nat, kind: nat, o: nat, n: nat, e: nat, f: nat, moment: Instant)
    returns (ops: seq<Op>, again: Op)
    requires o != n && correction(f, n, o)
    ensures again == Remember(3, user, kind, o, e, moment) && FreshIds(correction, ops + [again])
    ensures Replay(map[], correction, ops + [again]) == Replay(map[], correction, ops)
    ensures Holder(Replay(map[], correction, ops), RowOf(again), 1)
    ensures Replay(map[], correction, ops)[1].expires > moment
    ensures !Recallable(Replay(map[], correction, ops + [again]), RowOf(again), moment)
  {
    CorrectedReplays(correction, user, kind, o, n, e, f, moment);
    ops := [] + [Remember(1, user, kind, o, e, moment)] + [Remember(2, user, kind, n, f, moment)]
      + [Supersede(1, 2, moment)];
    again := Remember(3, user, kind, o, e, moment);
    var t := Corrected(NewRow(user, kind, o, e, moment), NewRow(user, kind, n, f, moment));
    Played(correction, ops, again);
    assert Holder(t, RowOf(again), 1);
    IdsAreFresh(correction, ops, again);
  }

  lemma IdsAreFresh(correction: Correction, ops: seq<Op>, again: Op)
    requires |ops| == 3 && ops[0].Remember? && ops[1].Remember? && ops[2].Supersede? && again.Remember?
    requires ops[0].id == 1 && ops[1].id == 2 && again.id == 3 && 3 !in Replay(map[], correction, ops)
    ensures FreshIds(correction, ops + [again])
  {
    var more := ops + [again];
    assert more[..0] == [] && more[..3] == ops;
    assert more[..1] == [] + [ops[0]];
    Played(correction, [], ops[0]);
  }
}
