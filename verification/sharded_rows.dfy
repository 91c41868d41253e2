/**
 Rows kept in shards under unique keys: what a reader accepts, and the list it returns.
 `good` says whether a row may stand in a shard, `key` gives the identity rows are sorted by.
 */
module ShardedRows {

  ghost predicate UniqueKeys<S(!new), R(!new)>(shards: map<S, seq<R>>, key: R -> nat) {
    forall s, i, t, j | s in shards && 0 <= i < |shards[s]| && t in shards && 0 <= j < |shards[t]| ::
      key(shards[s][i]) == key(shards[t][j]) ==> s == t && i == j
  }

  ghost predicate Loadable<S(!new), R(!new)>(shards: map<S, seq<R>>, good: (S, R) -> bool, key: R -> nat, cap: nat) {
    && (forall s :: s in shards ==> |shards[s]| <= cap)
    && (forall s, i | s in shards && 0 <= i < |shards[s]| :: good(s, shards[s][i]))
    && UniqueKeys(shards, key)
  }

  ghost predicate Holds<S(!new), R(!new)>(shards: map<S, seq<R>>, r: R) {
    exists s, i :: s in shards && 0 <= i < |shards[s]| && shards[s][i] == r
  }

  ghost predicate SortedBy<R>(rows: seq<R>, key: R -> nat) {
    forall i, j :: 0 <= i < j < |rows| ==> key(rows[i]) < key(rows[j])
  }

  function Insert<R(==, !new)>(rows: seq<R>, r: R, key: R -> nat): (out: seq<R>)
    ensures |out| == |rows| + 1
    ensures forall d :: d in out <==> d == r || d in rows
  {
    if rows == [] then [r]
    else if key(r) < key(rows[0]) then [r] + rows
    else [rows[0]] + Insert(rows[1..], r, key)
  }

  lemma {:induction false} InsertKeepsSorted<R(!new)>(rows: seq<R>, r: R, key: R -> nat)
    requires SortedBy(rows, key)
    requires forall d :: d in rows ==> key(d) != key(r)
    ensures SortedBy(Insert(rows, r, key), key)
  {
    if rows != [] && !(key(r) < key(rows[0])) {
      InsertKeepsSorted(rows[1..], r, key);
      var rest := Insert(rows[1..], r, key);
      forall j | 0 <= j < |rest| ensures key(rows[0]) < key(rest[j]) {
        assert rest[j] in rest;
      }
    }
  }

  lemma FirstIsMember<R(!new)>(rows: seq<R>)
    requires |rows| > 0
    ensures exists r :: r in rows
  {
    assert rows[0] in rows;
  }

  /** Two key-sorted lists of the same rows are the same list. */
  lemma {:induction false} SortedListUnique<R(!new)>(a: seq<R>, b: seq<R>, key: R -> nat)
    requires SortedBy(a, key) && SortedBy(b, key)
    requires forall r :: r in a <==> r in b
    ensures a == b
  {
    if a == [] {
      if |b| > 0 { FirstIsMember(b); }
    } else {
      assert a[0] in b;
      assert b[0] in a;
      assert a[0] == b[0];
      forall r ensures r in a[1..] <==> r in b[1..] {
        if r in a[1..] { assert r in b; }
        if r in b[1..] { assert r in a; }
      }
      SortedListUnique(a[1..], b[1..], key);
    }
  }

  /** The lines of one shard can be read on top of the rows `before`. */
  ghost predicate Readable<R(!new)>(lines: seq<R>, good: R -> bool, key: R -> nat, before: seq<R>) {
    && (forall i :: 0 <= i < |lines| ==> good(lines[i]))
    && (forall i, j :: 0 <= i < j < |lines| ==> key(lines[i]) != key(lines[j]))
    && (forall i, r :: 0 <= i < |lines| && r in before ==> key(lines[i]) != key(r))
  }

  lemma ReadOneMore<R(!new)>(lines: seq<R>, good: R -> bool, key: R -> nat, before: seq<R>, loaded: seq<R>, k: nat)
    requires k < |lines| && Readable(lines[..k], good, key, before)
    requires forall r :: r in loaded <==> r in before || r in lines[..k]
    ensures Readable(lines[..k + 1], good, key, before) <==>
      good(lines[k]) && forall d :: d in loaded ==> key(d) != key(lines[k])
    ensures forall r :: r in lines[..k + 1] <==> r in lines[..k] || r == lines[k]
  {
    var now, more := lines[..k], lines[..k + 1];
    assert more == now + [lines[k]];
    if Readable(more, good, key, before) {
      assert good(more[k]);
      forall d | d in loaded ensures key(d) != key(lines[k]) {
        if d in now {
          var i :| 0 <= i < k && now[i] == d;
          assert key(more[i]) != key(more[k]);
        } else {
          assert d in before && key(more[k]) != key(d);
        }
      }
    }
    if good(lines[k]) && forall d :: d in loaded ==> key(d) != key(lines[k]) {
      forall i | 0 <= i < k ensures key(more[i]) != key(more[k]) {
        assert now[i] in loaded;
      }
      forall i, r | 0 <= i < |more| && r in before ensures key(more[i]) != key(r) {
        assert r in loaded;
        if i < k { assert key(now[i]) != key(r); }
      }
      forall i, j | 0 <= i < j < |more| ensures key(more[i]) != key(more[j]) {
        if j < k { assert key(now[i]) != key(now[j]); }
      }
    }
  }

  lemma ReadablePrefix<R(!new)>(lines: seq<R>, good: R -> bool, key: R -> nat, before: seq<R>, k: nat)
    requires k <= |lines|
    ensures Readable(lines, good, key, before) ==> Readable(lines[..k], good, key, before)
  {
  }

  /** Reads one shard on top of the rows already read; a repeated key is a refusal. */
  method LoadShard<R(==, !new)>(lines: seq<R>, good: R -> bool, key: R -> nat, before: seq<R>)
    returns (ok: bool, loaded: seq<R>)
    requires SortedBy(before, key)
    ensures ok <==> Readable(lines, good, key, before)
    ensures ok ==> SortedBy(loaded, key) && forall r :: r in loaded <==> r in before || r in lines
  {
    loaded := before;
    for k := 0 to |lines|
      invariant SortedBy(loaded, key) && Readable(lines[..k], good, key, before)
      invariant forall r :: r in loaded <==> r in before || r in lines[..k]
    {
      var c := lines[k];
      ReadOneMore(lines, good, key, before, loaded, k);
      if !good(c) || exists d :: d in loaded && key(d) == key(c) {
        ReadablePrefix(lines, good, key, before, k + 1);
        return false, loaded;
      }
      InsertKeepsSorted(loaded, c, key);
      loaded := Insert(loaded, c, key);
    }
    assert lines[..|lines|] == lines;
    ok := true;
  }

  /** The shards of `done` alone. */
  function Part<S(!new), R(!new)>(shards: map<S, seq<R>>, done: set<S>): map<S, seq<R>> {
    map s | s in shards && s in done :: shards[s]
  }

  lemma OneMoreShard<S(!new), R(!new)>(
    shards: map<S, seq<R>>, good: (S, R) -> bool, key: R -> nat, cap: nat, done: set<S>, s: S, before: seq<R>)
    requires s in shards && s !in done && Loadable(Part(shards, done), good, key, cap)
    requires forall r :: r in before <==> Holds(Part(shards, done), r)
    ensures Loadable(Part(shards, done + {s}), good, key, cap)
      <==> |shards[s]| <= cap && Readable(shards[s], (r: R) => good(s, r), key, before)
    ensures forall r :: Holds(Part(shards, done + {s}), r) <==> r in before || r in shards[s]
  {
    var now, more := Part(shards, done), Part(shards, done + {s});
    assert more == now[s := shards[s]];
    forall r ensures Holds(more, r) <==> r in before || r in shards[s] {
      if r in before {
        var t, i :| t in now && 0 <= i < |now[t]| && now[t][i] == r;
        assert more[t][i] == r;
      }
      if r in shards[s] {
        var i :| 0 <= i < |shards[s]| && shards[s][i] == r;
        assert more[s][i] == r;
      }
      if Holds(more, r) && r !in shards[s] {
        var t, i :| t in more && 0 <= i < |more[t]| && more[t][i] == r;
        assert now[t][i] == r;
      }
    }
    if Loadable(more, good, key, cap) {
      NewShardReadable(more, good, key, cap, s, now, before);
    }
    if |shards[s]| <= cap && Readable(shards[s], (r: R) => good(s, r), key, before) {
      NewShardLoadable(now, good, key, cap, s, shards[s], before);
    }
  }

  lemma NewShardReadable<S(!new), R(!new)>(
    more: map<S, seq<R>>, good: (S, R) -> bool, key: R -> nat, cap: nat, s: S, now: map<S, seq<R>>, before: seq<R>)
    requires s in more && s !in now && more == now[s := more[s]] && Loadable(more, good, key, cap)
    requires forall r :: r in before <==> Holds(now, r)
    ensures |more[s]| <= cap && Readable(more[s], (r: R) => good(s, r), key, before)
  {
    forall i, r | 0 <= i < |more[s]| && r in before ensures key(more[s][i]) != key(r) {
      var t, j :| t in now && 0 <= j < |now[t]| && now[t][j] == r;
      assert more[t][j] == r;
    }
  }

  lemma NewShardLoadable<S(!new), R(!new)>(
    now: map<S, seq<R>>, good: (S, R) -> bool, key: R -> nat, cap: nat, s: S, lines: seq<R>, before: seq<R>)
    requires s !in now && Loadable(now, good, key, cap) && |lines| <= cap
    requires Readable(lines, (r: R) => good(s, r), key, before)
    requires forall r :: r in before <==> Holds(now, r)
    ensures Loadable(now[s := lines], good, key, cap)
  {
    var more := now[s := lines];
    forall i, t, j | 0 <= i < |lines| && t in now && 0 <= j < |now[t]|
      ensures key(lines[i]) != key(now[t][j])
    {
      assert now[t][j] in before;
    }
    assert forall i, j :: 0 <= i < j < |lines| ==> key(lines[i]) != key(lines[j]);
    assert UniqueKeys(more, key);
  }

  lemma PartLoadable<S(!new), R(!new)>(
    shards: map<S, seq<R>>, good: (S, R) -> bool, key: R -> nat, cap: nat, done: set<S>)
    requires Loadable(shards, good, key, cap)
    ensures Loadable(Part(shards, done), good, key, cap)
  {
    var part := Part(shards, done);
    forall t, i, u, j |
      t in part && 0 <= i < |part[t]| && u in part && 0 <= j < |part[u]| && key(part[t][i]) == key(part[u][j])
      ensures t == u && i == j
    {
      assert key(shards[t][i]) == key(shards[u][j]);
    }
  }

  /** Reads every shard: each row once, by key, or a refusal exactly when the shards are not loadable. */
  method Load<S(==, !new), R(==, !new)>(shards: map<S, seq<R>>, good: (S, R) -> bool, key: R -> nat, cap: nat)
    returns (ok: bool, loaded: seq<R>)
    ensures ok <==> Loadable(shards, good, key, cap)
    ensures ok ==> SortedBy(loaded, key) && forall r :: r in loaded <==> Holds(shards, r)
  {
    var todo := shards.Keys;
    ghost var done: set<S> := {};
    loaded := [];
    while todo != {}
      invariant todo + done == shards.Keys && todo !! done
      invariant Loadable(Part(shards, done), good, key, cap) && SortedBy(loaded, key)
      invariant forall r :: r in loaded <==> Holds(Part(shards, done), r)
      decreases todo
    {
      var s :| s in todo;
      OneMoreShard(shards, good, key, cap, done, s, loaded);
      var fits := |shards[s]| <= cap;
      if fits { fits, loaded := LoadShard(shards[s], (r: R) => good(s, r), key, loaded); }
      todo := todo - {s};
      done := done + {s};
      if !fits {
        if Loadable(shards, good, key, cap) { PartLoadable(shards, good, key, cap, done); }
        return false, loaded;
      }
    }
    assert Part(shards, done) == shards;
    ok := true;
  }

  /** Rows with distinct keys drawn from `keys` are at most as many as the keys. */
  lemma {:induction false} DistinctRowsBounded<R(!new)>(rows: seq<R>, key: R -> nat, keys: set<nat>)
    requires forall i, j :: 0 <= i < j < |rows| ==> key(rows[i]) != key(rows[j])
    requires forall r :: r in rows ==> key(r) in keys
    ensures |rows| <= |keys|
  {
    if rows != [] {
      DistinctRowsBounded(rows[1..], key, keys - {key(rows[0])});
    }
  }

  /** Rewriting one shard so that the row of one key changes and every other row stays: the rest
      of the store is untouched and keys stay unique. */
  lemma RewriteShard<S(!new), R(!new)>(
    shards: map<S, seq<R>>, good: (S, R) -> bool, key: R -> nat, cap: nat, s: S, old_: R, r: R, rows: seq<R>)
    requires Loadable(shards, good, key, cap)
    requires s in shards && old_ in shards[s] && key(old_) == key(r) && good(s, r)
    requires |rows| <= cap && SortedBy(rows, key)
    requires forall d :: d in rows <==> d == r || (d in shards[s] && key(d) != key(r))
    ensures Loadable(shards[s := rows], good, key, cap)
    ensures forall d :: Holds(shards[s := rows], d) <==> d == r || (Holds(shards, d) && d != old_)
  {
    var next := shards[s := rows];
    forall d | d in rows ensures exists q :: 0 <= q < |shards[s]| && key(shards[s][q]) == key(d) {
      var twin := if d == r then old_ else d;
      assert twin in shards[s] && key(twin) == key(d);
    }
    forall i, u, j | 0 <= i < |rows| && u in shards && 0 <= j < |shards[u]| && key(shards[u][j]) == key(rows[i])
      ensures u == s
    {
      assert rows[i] in rows;
      var q :| 0 <= q < |shards[s]| && key(shards[s][q]) == key(rows[i]);
    }
    assert UniqueKeys(next, key);
    forall d | Holds(next, d) ensures d == r || (Holds(shards, d) && d != old_) {
      var t, i :| t in next && 0 <= i < |next[t]| && next[t][i] == d;
      if t == s {
        assert d in rows;
        if d != r { assert d in shards[s]; }
      } else {
        assert shards[t][i] == d;
        var p :| 0 <= p < |shards[s]| && shards[s][p] == old_;
      }
    }
    forall d | d == r || (Holds(shards, d) && d != old_) ensures Holds(next, d) {
      if d == r || d in shards[s] {
        UniqueInShard(shards, key, s, old_, d);
        assert d in rows;
        var q :| 0 <= q < |rows| && rows[q] == d;
        assert next[s][q] == d;
      } else {
        var t, i :| t in shards && 0 <= i < |shards[t]| && shards[t][i] == d;
        assert next[t][i] == d;
      }
    }
  }

  lemma UniqueInShard<S(!new), R(!new)>(shards: map<S, seq<R>>, key: R -> nat, s: S, a: R, b: R)
    requires UniqueKeys(shards, key) && s in shards && a in shards[s]
    ensures b in shards[s] && key(a) == key(b) ==> a == b
  {
    if b in shards[s] && key(a) == key(b) {
      var p :| 0 <= p < |shards[s]| && shards[s][p] == a;
      var q :| 0 <= q < |shards[s]| && shards[s][q] == b;
    }
  }

  /** Filing a row whose key is new keeps the store loadable and adds just that row. */
  lemma FileRow<S(!new), R(!new)>(
    shards: map<S, seq<R>>, good: (S, R) -> bool, key: R -> nat, cap: nat, s: S, r: R, rows: seq<R>)
    requires Loadable(shards, good, key, cap) && good(s, r)
    requires forall d :: Holds(shards, d) ==> key(d) != key(r)
    requires |rows| <= cap && SortedBy(rows, key)
    requires forall d :: d in rows <==> d == r || (s in shards && d in shards[s])
    ensures Loadable(shards[s := rows], good, key, cap)
    ensures forall d :: Holds(shards[s := rows], d) <==> d == r || Holds(shards, d)
  {
    var next := shards[s := rows];
    forall i, u, j | 0 <= i < |rows| && u in shards && 0 <= j < |shards[u]| && key(shards[u][j]) == key(rows[i])
      ensures u == s
    {
      assert rows[i] in rows;
      assert Holds(shards, shards[u][j]);
      if s in shards && rows[i] in shards[s] { var q :| 0 <= q < |shards[s]| && shards[s][q] == rows[i]; }
    }
    assert UniqueKeys(next, key);
    forall t, i | t in next && 0 <= i < |next[t]| ensures good(t, next[t][i]) {
      if t == s {
        assert rows[i] in rows;
        if rows[i] != r { var q :| 0 <= q < |shards[s]| && shards[s][q] == rows[i]; }
      }
    }
    forall d | d == r || Holds(shards, d) ensures Holds(next, d) {
      if d == r || (s in shards && d in shards[s]) {
        assert d in rows;
        var q :| 0 <= q < |rows| && rows[q] == d;
        assert next[s][q] == d;
      } else {
        var t, i :| t in shards && 0 <= i < |shards[t]| && shards[t][i] == d;
        assert next[t][i] == d;
      }
    }
    forall d | Holds(next, d) ensures d == r || Holds(shards, d) {
      var t, i :| t in next && 0 <= i < |next[t]| && next[t][i] == d;
      if t == s {
        assert d in rows;
        if d != r { var q :| 0 <= q < |shards[s]| && shards[s][q] == d; }
      } else {
        assert shards[t][i] == d;
      }
    }
  }

  // ---------------------------------------------------------------- the table the shards hold

  ghost function Table<S(!new), R(!new)>(shards: map<S, seq<R>>, key: R -> nat): (table: map<nat, R>)
    requires UniqueKeys(shards, key)
    ensures forall r :: Holds(shards, r) <==> key(r) in table && table[key(r)] == r
    ensures forall k :: k in table ==> key(table[k]) == k
  {
    var keys := set s, i | s in shards && 0 <= i < |shards[s]| :: key(shards[s][i]);
    var table := map k | k in keys :: (var r :| Holds(shards, r) && key(r) == k; r);
    assert forall r :: Holds(shards, r) ==> key(r) in keys;
    table
  }

  /** The key-sorted list of a table's rows. */
  ghost predicate Lists<R(!new)>(rows: seq<R>, table: map<nat, R>, key: R -> nat) {
    && SortedBy(rows, key)
    && forall r :: r in rows <==> key(r) in table && table[key(r)] == r
  }

  /** Replacing a row inside its own shard changes exactly that entry of the table. */
  lemma ReplacedEntry<S(!new), R(!new)>(
    shards: map<S, seq<R>>, good: (S, R) -> bool, key: R -> nat, cap: nat, s: S, r: R, rows: seq<R>)
    requires Loadable(shards, good, key, cap) && key(r) in Table(shards, key)
    requires s in shards && Table(shards, key)[key(r)] in shards[s] && good(s, r)
    requires |rows| <= cap && SortedBy(rows, key)
    requires forall d :: d in rows <==> d == r || (d in shards[s] && key(d) != key(r))
    ensures Loadable(shards[s := rows], good, key, cap)
    ensures Table(shards[s := rows], key) == Table(shards, key)[key(r) := r]
  {
    var table := Table(shards, key);
    RewriteShard(shards, good, key, cap, s, table[key(r)], r, rows);
    var next := shards[s := rows];
    var after, want := Table(next, key), table[key(r) := r];
    forall k | k in after ensures k in want && want[k] == after[k] {
      assert Holds(next, after[k]);
    }
    forall k | k in want ensures k in after {
      assert want[k] == r || Holds(shards, want[k]);
      assert Holds(next, want[k]);
    }
  }

  /** Storing a row in a shard other than its key's leaves two rows with one key: no reader accepts it. */
  lemma MovedRowDuplicates<S(!new), R(!new)>(
    shards: map<S, seq<R>>, good: (S, R) -> bool, key: R -> nat, cap: nat, s: S, r: R, rows: seq<R>, home: S)
    requires Loadable(shards, good, key, cap) && key(r) in Table(shards, key)
    requires home in shards && Table(shards, key)[key(r)] in shards[home] && home != s
    requires r in rows
    ensures !Loadable(shards[s := rows], good, key, cap)
  {
    var next := shards[s := rows];
    var i :| 0 <= i < |rows| && rows[i] == r;
    var j :| 0 <= j < |shards[home]| && shards[home][j] == Table(shards, key)[key(r)];
    assert key(next[s][i]) == key(next[home][j]);
  }

  lemma {:induction false} MembersBounded(s: seq<nat>, members: set<nat>)
    requires forall x :: x in members ==> x in s
    ensures |members| <= |s|
  {
    if s != [] {
      MembersBounded(s[1..], members - {s[0]});
      if s[0] in members { assert members == (members - {s[0]}) + {s[0]}; }
      else { assert members == members - {s[0]}; }
    } else {
      assert members == {};
    }
  }

  /** The lines of other keys, by key. */
  method OtherRows<R(==, !new)>(lines: seq<R>, key: R -> nat, k: nat) returns (rows: seq<R>)
    requires forall i, j :: 0 <= i < j < |lines| ==> key(lines[i]) != key(lines[j])
    ensures SortedBy(rows, key)
    ensures forall d :: d in rows <==> d in lines && key(d) != k
  {
    rows := [];
    for i := 0 to |lines|
      invariant SortedBy(rows, key)
      invariant forall d :: d in rows <==> d in lines[..i] && key(d) != k
    {
      assert lines[..i + 1] == lines[..i] + [lines[i]];
      if key(lines[i]) != k {
        forall d | d in rows ensures key(d) != key(lines[i]) {
          var j :| 0 <= j < i && lines[j] == d;
        }
        InsertKeepsSorted(rows, lines[i], key);
        rows := Insert(rows, lines[i], key);
      }
    }
    assert lines[..|lines|] == lines;
  }

  /** The shard as rewritten for `r`: the rows of other keys, and `r`, by key. */
  method RewrittenShard<S(==, !new), R(==, !new)>(
    shards: map<S, seq<R>>, key: R -> nat, s: S, r: R
  ) returns (rows: seq<R>)
    requires UniqueKeys(shards, key) && key(r) in Table(shards, key)
    ensures SortedBy(rows, key) && |rows| <= |Table(shards, key).Keys|
    ensures forall d :: d in rows <==> d == r || (s in shards && d in shards[s] && key(d) != key(r))
  {
    var lines := if s in shards then shards[s] else [];
    var others := OtherRows(lines, key, key(r));
    InsertKeepsSorted(others, r, key);
    rows := Insert(others, r, key);
    forall d | d in rows ensures key(d) in Table(shards, key).Keys {
      if d != r {
        var i :| 0 <= i < |lines| && lines[i] == d;
        assert Holds(shards, d);
      }
    }
    DistinctRowsBounded(rows, key, Table(shards, key).Keys);
  }

  /** Files rows with distinct keys into fresh shards. */
  method Stage<S(==, !new), R(==, !new)>(
    cs: seq<R>, ghost good: (S, R) -> bool, key: R -> nat, ghost cap: nat, place: R -> S
  ) returns (staged: map<S, seq<R>>)
    requires forall i, j :: 0 <= i < j < |cs| ==> key(cs[i]) != key(cs[j])
    requires forall c :: c in cs ==> good(place(c), c)
    requires |cs| <= cap
    ensures Loadable(staged, good, key, cap)
    ensures forall c :: Holds(staged, c) <==> c in cs
  {
    staged := map[];
    for i := 0 to |cs|
      invariant Loadable(staged, good, key, cap)
      invariant forall s :: s in staged ==> |staged[s]| <= i && SortedBy(staged[s], key)
      invariant forall c :: Holds(staged, c) <==> c in cs[..i]
    {
      var c := cs[i];
      assert cs[..i + 1] == cs[..i] + [c];
      var s := place(c);
      var stored := if s in staged then staged[s] else [];
      forall d | Holds(staged, d) ensures key(d) != key(c) {
        var j :| 0 <= j < i && cs[j] == d;
      }
      forall d | d in stored ensures Holds(staged, d) {
        var j :| 0 <= j < |stored| && stored[j] == d;
        assert staged[s][j] == d;
      }
      InsertKeepsSorted(stored, c, key);
      var rows := Insert(stored, c, key);
      FileRow(staged, good, key, cap, s, c, rows);
      staged := staged[s := rows];
    }
    assert cs[..|cs|] == cs;
  }
}
