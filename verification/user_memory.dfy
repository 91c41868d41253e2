/**
 What the assistant remembers about colleagues: rows that expire, come back when a fact is
 repeated, replace one another, and are purged under a foreign key onto the same table.

 Texts stand as numbers; 0 is the empty text. Whether a quote supports a fact, and whether it
 is an explicit correction of another, are inputs.
 */
module UserMemory {
  import opened Options

  type Id = nat
  type Instant = int

  const RETENTION := 182 * 86400 // seconds

  datatype Row = Row(
    user: nat, kind: nat, fact: nat, evidence: nat, recorded: Instant, expires: Instant, supersededBy: Option<Id>)

  type Table = map<Id, Row>

  /** `correction(evidence, newFact, oldFact)`: `_explicit_correction`. */
  type Correction = (nat, nat, nat) -> bool

  // ---------------------------------------------------------------- the invariant

  predicate SameFact(a: Row, b: Row) { a.user == b.user && a.kind == b.kind && a.fact == b.fact }

  /** UNIQUE (slack_user, kind, fact). */
  ghost predicate UniqueFacts(t: Table) { forall a, b :: a in t && b in t && SameFact(t[a], t[b]) ==> a == b }

  ghost predicate Dated(t: Table) { forall a :: a in t ==> t[a].expires == t[a].recorded + RETENTION }

  /** Every edge stays within one user and kind and leads to a row that does not expire earlier. */
  ghost predicate EdgesForward(t: Table) {
    forall a {:trigger t[a].supersededBy} :: a in t && t[a].supersededBy.Some? ==>
      var b := t[a].supersededBy.value;
      b in t && t[b].user == t[a].user && t[b].kind == t[a].kind && t[b].recorded >= t[a].recorded
  }

  /** Some numbering rises along every edge, so no chain of edges comes back. */
  ghost predicate Ranked(t: Table, rank: map<Id, nat>) {
    && t.Keys <= rank.Keys
    && forall a {:trigger t[a].supersededBy} :: a in t && t[a].supersededBy.Some? && t[a].supersededBy.value in t ==>
         rank[a] < rank[t[a].supersededBy.value]
  }

  ghost predicate Forest(t: Table) { exists rank :: Ranked(t, rank) }

  ghost predicate Valid(t: Table) { UniqueFacts(t) && Dated(t) && EdgesForward(t) && Forest(t) }

  // ---------------------------------------------------------------- the operations

  /** The row that already holds a fact. */
  ghost predicate Holder(t: Table, row: Row, id: Id) { id in t && SameFact(t[id], row) }

  function NewRow(user: nat, kind: nat, fact: nat, evidence: nat, moment: Instant): Row {
    Row(user, kind, fact, evidence, moment, moment + RETENTION, None)
  }

  /** An expired row said again: the same row, true once more. */
  function Rearmed(old_: Row, evidence: nat, moment: Instant): Row {
    old_.(recorded := moment, expires := moment + RETENTION, evidence := evidence, supersededBy := None)
  }

  predicate Active(r: Row, moment: Instant) { r.expires > moment && r.supersededBy.None? }

  function ActiveOfKind(t: Table, user: nat, kind: nat, moment: Instant): set<Id> {
    set a | a in t && t[a].user == user && t[a].kind == kind && Active(t[a], moment)
  }

  /** When `_supersede_in_transaction` retires `old_` in favour of `new_`. */
  predicate MaySupersede(t: Table, correction: Correction, old_: Id, new_: Id, moment: Instant) {
    && old_ in t && new_ in t && old_ != new_
    && t[old_].user == t[new_].user && t[old_].kind == t[new_].kind
    && correction(t[new_].evidence, t[new_].fact, t[old_].fact)
    && Active(t[old_], moment) && Active(t[new_], moment)
    && t[old_].recorded <= t[new_].recorded <= moment
    && |ActiveOfKind(t, t[old_].user, t[old_].kind, moment)| == 2
  }

  function Superseded(t: Table, old_: Id, new_: Id): Table
    requires old_ in t
  {
    t[old_ := t[old_].(supersededBy := Some(new_))]
  }

  function Forgotten(t: Table, user: nat): Table { map a | a in t && t[a].user != user :: t[a] }

  function Purged(t: Table, moment: Instant): Table { map a | a in t && t[a].expires > moment :: t[a] }

  /** What `recall` can see of one user. */
  function Visible(t: Table, user: nat, moment: Instant): set<Id> {
    set a | a in t && t[a].user == user && Active(t[a], moment)
  }

  // ---------------------------------------------------------------- what keeps the table valid

  lemma InsertKeepsValid(t: Table, id: Id, row: Row)
    requires Valid(t) && id !in t && row.supersededBy.None? && row.expires == row.recorded + RETENTION
    requires forall a :: a in t ==> !SameFact(t[a], row)
    ensures Valid(t[id := row])
  {
    var rank :| Ranked(t, rank);
    assert Ranked(t[id := row], rank[id := if id in rank then rank[id] else 0]);
  }

  lemma RearmKeepsValid(t: Table, id: Id, evidence: nat, moment: Instant)
    requires Valid(t) && id in t && t[id].expires <= moment
    ensures Valid(t[id := Rearmed(t[id], evidence, moment)])
  {
    var rank :| Ranked(t, rank);
    assert Ranked(t[id := Rearmed(t[id], evidence, moment)], rank);
  }

  /** Both ends of a new edge are unsuperseded, so it cannot close a cycle. */
  lemma SupersedeKeepsValid(t: Table, old_: Id, new_: Id)
    requires Valid(t) && old_ in t && new_ in t && old_ != new_
    requires t[old_].supersededBy.None? && t[new_].supersededBy.None?
    requires t[old_].user == t[new_].user && t[old_].kind == t[new_].kind && t[old_].recorded <= t[new_].recorded
    ensures Valid(Superseded(t, old_, new_))
  {
    var rank :| Ranked(t, rank);
    var raised := rank[new_ := rank[old_] + rank[new_] + 1];
    assert Ranked(Superseded(t, old_, new_), raised);
  }

  /** Main result: deleting one user's rows, or the expired rows, never leaves a reference to a row
      that is gone. */
  lemma ForgetKeepsValid(t: Table, user: nat)
    requires Valid(t)
    ensures Valid(Forgotten(t, user))
  {
    var rank :| Ranked(t, rank);
    assert Ranked(Forgotten(t, user), rank);
  }

  lemma PurgeKeepsValid(t: Table, moment: Instant)
    requires Valid(t)
    ensures Valid(Purged(t, moment))
  {
    var rank :| Ranked(t, rank);
    assert Ranked(Purged(t, moment), rank);
  }

  // ---------------------------------------------------------------- when a correction applies

  /** Unexpired, and not corrected. */
  predicate Stands(r: Row, moment: Instant) { moment < r.expires && r.supersededBy == None }

  /** Two standing rows of one user and kind, the newer an explicit correction of the older, recorded in that
      order and by now, and nothing else of that kind standing. */
  ghost predicate CorrectsAlone(t: Table, correction: Correction, o: Id, n: Id, moment: Instant) {
    && o in t && n in t && o != n
    && correction(t[n].evidence, t[n].fact, t[o].fact)
    && t[o].recorded <= t[n].recorded && t[n].recorded <= moment
    && t[n].user == t[o].user && t[n].kind == t[o].kind
    && forall a :: a in t && t[a].user == t[o].user && t[a].kind == t[o].kind ==>
         (Stands(t[a], moment) <==> a == o || a == n)
  }

  /** Main result: a correction applies exactly when it corrects alone. */
  lemma SupersedesExactly(t: Table, correction: Correction, o: Id, n: Id, moment: Instant)
    ensures MaySupersede(t, correction, o, n, moment) <==> CorrectsAlone(t, correction, o, n, moment)
  {
    if o in t {
      var active := ActiveOfKind(t, t[o].user, t[o].kind, moment);
      if CorrectsAlone(t, correction, o, n, moment) {
        assert Stands(t[o], moment) && Stands(t[n], moment);
        assert active == {o, n};
      }
      if MaySupersede(t, correction, o, n, moment) {
        assert {o, n} <= active;
        assert |active - {o, n}| == 0;
        forall a | a in t && t[a].user == t[o].user && t[a].kind == t[o].kind
          ensures Stands(t[a], moment) <==> a == o || a == n
        {
          if Stands(t[a], moment) { assert a in active; }
          if a == o || a == n { assert a in active; }
        }
      }
    }
  }

  // ---------------------------------------------------------------- chains

  /** A chain of supersessions, each row replaced by the next. */
  ghost predicate Chain(t: Table, path: seq<Id>) {
    && (forall i :: 0 <= i < |path| ==> path[i] in t)
    && forall i :: 0 <= i < |path| - 1 ==> t[path[i]].supersededBy == Some(path[i + 1])
  }

  lemma {:induction false} RankRises(t: Table, rank: map<Id, nat>, path: seq<Id>, i: nat, j: nat)
    requires Ranked(t, rank) && Chain(t, path) && i < j < |path|
    ensures rank[path[i]] < rank[path[j]]
    decreases j
  {
    if i < j - 1 { RankRises(t, rank, path, i, j - 1); }
    assert t[path[j - 1]].supersededBy == Some(path[j]);
  }

  lemma {:induction false} ForwardAlong(t: Table, path: seq<Id>, i: nat, j: nat)
    requires Valid(t) && Chain(t, path) && i <= j < |path|
    ensures t[path[i]].user == t[path[j]].user && t[path[i]].kind == t[path[j]].kind
    ensures t[path[i]].expires <= t[path[j]].expires
    decreases j
  {
    if i < j {
      ForwardAlong(t, path, i, j - 1);
      assert t[path[j - 1]].supersededBy == Some(path[j]);
    }
  }

  lemma {:induction false} FollowChain(t: Table, rank: map<Id, nat>, top: nat, path: seq<Id>) returns (whole: seq<Id>)
    requires Valid(t) && Ranked(t, rank) && path != [] && Chain(t, path)
    requires forall a :: a in t ==> rank[a] <= top
    ensures Chain(t, whole) && |path| <= |whole| && whole[0] == path[0]
    ensures t[whole[|whole| - 1]].supersededBy.None?
    decreases top - rank[path[|path| - 1]]
  {
    var last := path[|path| - 1];
    if t[last].supersededBy.None? {
      whole := path;
    } else {
      var next := t[last].supersededBy.value;
      whole := FollowChain(t, rank, top, path + [next]);
    }
  }

  lemma {:induction false} TopRank(t: set<Id>, rank: map<Id, nat>) returns (top: nat)
    requires t <= rank.Keys
    ensures forall a :: a in t ==> rank[a] <= top
    decreases |t|
  {
    top := 0;
    if t != {} {
      var x :| x in t;
      top := TopRank(t - {x}, rank);
      if top < rank[x] { top := rank[x]; }
    }
  }

  /** Main result: from every row the supersessions lead, without repeating a row and without leaving
      its user and kind, to one unsuperseded row that expires no earlier. */
  lemma EveryChainEnds(t: Table, id: Id) returns (path: seq<Id>)
    requires Valid(t) && id in t
    ensures path != [] && path[0] == id && Chain(t, path)
    ensures forall i, j :: 0 <= i < j < |path| ==> path[i] != path[j]
    ensures var last := t[path[|path| - 1]];
      last.supersededBy.None? && last.user == t[id].user && last.kind == t[id].kind && last.expires >= t[id].expires
  {
    var rank :| Ranked(t, rank);
    var top := TopRank(t.Keys, rank);
    path := FollowChain(t, rank, top, [id]);
    forall i, j | 0 <= i < j < |path| ensures path[i] != path[j] { RankRises(t, rank, path, i, j); }
    ForwardAlong(t, path, 0, |path| - 1);
  }

  // ---------------------------------------------------------------- purging is only housekeeping

  /** Main result: whether and when the purge runs changes nothing anyone can recall. */
  lemma PurgeIsInvisible(t: Table, user: nat, purged: Instant, moment: Instant)
    requires purged <= moment
    ensures Visible(Purged(t, purged), user, moment) == Visible(t, user, moment)
    ensures forall a :: a in Visible(t, user, moment) ==> Purged(t, purged)[a] == t[a]
  {
  }

  // ---------------------------------------------------------------- any history of operations

  datatype Op =
    | Remember(id: Id, user: nat, kind: nat, fact: nat, evidence: nat, moment: Instant)
    | Supersede(old_: Id, new_: Id, moment: Instant)
    | Forget(user: nat)
    | Purge(moment: Instant)

  /** The row with the same fact, if any. */
  ghost function Existing(t: Table, row: Row): Option<Id> {
    if exists a :: Holder(t, row, a) then
      var a :| Holder(t, row, a);
      Some(a)
    else None
  }

  /** `_remember_in_transaction` after its checks; `id` is the key SQLite would give a new row. */
  ghost function Remembered(t: Table, id: Id, row: Row): Table {
    match Existing(t, row)
    case None => if id in t then t else t[id := row]
    case Some(a) => if t[a].expires <= row.recorded then t[a := Rearmed(t[a], row.evidence, row.recorded)] else t
  }

  ghost function Apply(t: Table, correction: Correction, op: Op): Table {
    match op
    case Remember(id, user, kind, fact, evidence, moment) =>
      Remembered(t, id, NewRow(user, kind, fact, evidence, moment))
    case Supersede(o, n, moment) => if MaySupersede(t, correction, o, n, moment) then Superseded(t, o, n) else t
    case Forget(user) => Forgotten(t, user)
    case Purge(moment) => Purged(t, moment)
  }

  ghost function Replay(t: Table, correction: Correction, ops: seq<Op>): Table {
    if ops == [] then t else Apply(Replay(t, correction, ops[..|ops| - 1]), correction, ops[|ops| - 1])
  }

  lemma OpKeepsValid(t: Table, correction: Correction, op: Op)
    requires Valid(t)
    ensures Valid(Apply(t, correction, op))
  {
    match op
    case Remember(id, user, kind, fact, evidence, moment) =>
      var row := NewRow(user, kind, fact, evidence, moment);
      match Existing(t, row) {
        case None =>
          assert forall a :: a in t ==> !Holder(t, row, a);
          if id !in t { InsertKeepsValid(t, id, row); }
        case Some(a) => if t[a].expires <= moment { RearmKeepsValid(t, a, evidence, moment); }
      }
    case Supersede(o, n, moment) => if MaySupersede(t, correction, o, n, moment) { SupersedeKeepsValid(t, o, n); }
    case Forget(user) => ForgetKeepsValid(t, user);
    case Purge(moment) => PurgeKeepsValid(t, moment);
  }

  /** Main result: in every table any operations lead to, in any order and under any clocks, the
      supersessions form a forest within each user and lead only to rows that expire no earlier. */
  lemma {:induction false} ReachableIsValid(correction: Correction, ops: seq<Op>)
    ensures Valid(Replay(map[], correction, ops))
  {
    if ops == [] {
      assert Ranked(map[], map[]);
    } else {
      ReachableIsValid(correction, ops[..|ops| - 1]);
      OpKeepsValid(Replay(map[], correction, ops[..|ops| - 1]), correction, ops[|ops| - 1]);
    }
  }
}
