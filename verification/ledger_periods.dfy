/**
 Rows kept under a name: the billing periods of a ledger. `nameOf` gives a row's name, `limitOf`
 its ceiling.
 */
module LedgerPeriods {
  import opened Options
  import opened FirstBest
  import opened LedgerStamps
  import ShardedRows

  ghost predicate HasName<R(!new)>(rows: seq<R>, nameOf: R -> nat, name: nat) {
    exists r :: r in rows && nameOf(r) == name
  }

  ghost predicate DistinctNames<R(!new)>(rows: seq<R>, nameOf: R -> nat) {
    forall i, j :: 0 <= i < j < |rows| ==> nameOf(rows[i]) != nameOf(rows[j])
  }

  /** The names, or a refusal of a repeated one. */
  method CollectNames<R(!new)>(rows: seq<R>, nameOf: R -> nat) returns (ok: bool, names: set<nat>)
    ensures ok <==> DistinctNames(rows, nameOf)
    ensures forall n :: n in names ==> HasName(rows, nameOf, n)
    ensures ok ==> forall r :: r in rows ==> nameOf(r) in names
  {
    names := {};
    for i := 0 to |rows|
      invariant names == (set j | 0 <= j < i :: nameOf(rows[j]))
      invariant forall j, k :: 0 <= j < k < i ==> nameOf(rows[j]) != nameOf(rows[k])
    {
      if nameOf(rows[i]) in names { return false, names; }
      names := names + {nameOf(rows[i])};
    }
    ok := true;
  }

  /** Every row of this name has this ceiling, and there is one. */
  ghost predicate LimitOf<R(!new)>(rows: seq<R>, nameOf: R -> nat, limitOf: R -> int, name: nat, limit: int) {
    HasName(rows, nameOf, name) && forall r :: r in rows && nameOf(r) == name ==> limitOf(r) == limit
  }

  /** The ceiling all rows of a name agree on. */
  method AgreedLimit<R(!new)>(rows: seq<R>, nameOf: R -> nat, limitOf: R -> int, name: nat) returns (limit: Option<int>)
    ensures limit.Some? ==> LimitOf(rows, nameOf, limitOf, name, limit.value)
    ensures limit.None? ==> forall l: int :: !LimitOf(rows, nameOf, limitOf, name, l)
  {
    limit := None;
    for i := 0 to |rows|
      invariant limit.None? ==> !HasName(rows[..i], nameOf, name)
      invariant limit.Some? ==> LimitOf(rows[..i], nameOf, limitOf, name, limit.value)
    {
      var r := rows[i];
      assert rows[..i + 1] == rows[..i] + [r];
      if nameOf(r) == name {
        if limit.Some? && limit.value != limitOf(r) {
          ghost var q :| q in rows[..i] && nameOf(q) == name;
          assert q in rows && r in rows && limitOf(q) != limitOf(r);
          return None;
        }
        limit := Some(limitOf(r));
      }
    }
    assert rows[..|rows|] == rows;
  }

  // ---------------------------------------------------------------- stamps of one name

  function StampsNamed<R>(rows: seq<R>, nameOf: R -> nat, stampOf: R -> Stamp, name: nat): seq<Stamp> {
    if rows == [] then []
    else (if nameOf(rows[0]) == name then [stampOf(rows[0])] else []) + StampsNamed(rows[1..], nameOf, stampOf, name)
  }

  lemma {:induction false} StampsExist<R(!new)>(rows: seq<R>, nameOf: R -> nat, stampOf: R -> Stamp, name: nat)
    ensures StampsNamed(rows, nameOf, stampOf, name) != [] <==> HasName(rows, nameOf, name)
  {
    if rows != [] {
      StampsExist(rows[1..], nameOf, stampOf, name);
      assert forall r :: r in rows <==> r == rows[0] || r in rows[1..];
    }
  }

  lemma {:induction false} StampsFrom<R(!new)>(rows: seq<R>, nameOf: R -> nat, stampOf: R -> Stamp, name: nat, t: Stamp)
    requires t in StampsNamed(rows, nameOf, stampOf, name)
    ensures exists r :: r in rows && nameOf(r) == name && stampOf(r) == t
  {
    if nameOf(rows[0]) != name || stampOf(rows[0]) != t {
      StampsFrom(rows[1..], nameOf, stampOf, name, t);
    }
  }

  /** The stamps of a name over several sources. */
  function StampsOf<S, R>(rowsOf: S -> seq<R>, nameOf: R -> nat, stampOf: R -> Stamp, name: nat): S -> seq<Stamp> {
    s => StampsNamed(rowsOf(s), nameOf, stampOf, name)
  }

  lemma StampsAt<S(!new), R(!new)>(
    s: S, rowsOf: S -> seq<R>, rows: seq<R>, nameOf: R -> nat, stampOf: R -> Stamp, name: nat)
    requires rowsOf(s) == rows
    ensures StampsOf(rowsOf, nameOf, stampOf, name)(s) == StampsNamed(rows, nameOf, stampOf, name)
  {
  }

  lemma {:induction false} GatheredStamps<S(!new), R(!new)>(
    sources: seq<S>, rowsOf: S -> seq<R>, nameOf: R -> nat, stampOf: R -> Stamp, name: nat)
    ensures Gather(StampsOf(rowsOf, nameOf, stampOf, name), sources) != [] <==>
      HasName(Gather(rowsOf, sources), nameOf, name)
  {
    if sources != [] {
      GatheredStamps(sources[1..], rowsOf, nameOf, stampOf, name);
      StampsExist(rowsOf(sources[0]), nameOf, stampOf, name);
      assert forall r :: r in Gather(rowsOf, sources) <==> r in rowsOf(sources[0]) || r in Gather(rowsOf, sources[1..]);
    }
  }

  // ---------------------------------------------------------------- writing one row per name

  ghost predicate SortedByName<R(!new)>(rows: seq<R>, nameOf: R -> nat) {
    forall i, j :: 0 <= i < j < |rows| ==> nameOf(rows[i]) < nameOf(rows[j])
  }

  /** The rows written so far: one fine row for each of these names, in order. */
  ghost predicate Covers<R(!new)>(rows: seq<R>, nameOf: R -> nat, names: set<nat>, fine: R -> bool) {
    && ShardedRows.SortedBy(rows, nameOf)
    && (forall r :: r in rows ==> nameOf(r) in names && fine(r))
    && (forall n :: n in names ==> HasName(rows, nameOf, n))
  }

  lemma RowAdded<R(!new)>(rows: seq<R>, nameOf: R -> nat, row: R, names: set<nat>, fine: R -> bool)
    requires Covers(rows, nameOf, names, fine) && nameOf(row) !in names && fine(row)
    ensures Covers(ShardedRows.Insert(rows, row, nameOf), nameOf, names + {nameOf(row)}, fine)
  {
    ShardedRows.InsertKeepsSorted(rows, row, nameOf);
    var more := ShardedRows.Insert(rows, row, nameOf);
    forall n | n in names + {nameOf(row)} ensures HasName(more, nameOf, n) {
      if n == nameOf(row) { assert row in more; }
      else {
        var r :| r in rows && nameOf(r) == n;
        assert r in more;
      }
    }
  }
}
