/**
 Research tasks kept in one file per state and GEOID digit: writing, loading back, and
 replacing the whole universe after a staged round trip.

 Texts stand as numbers. `padded` says that some field carries surrounding blanks, which
 loading strips.
 */
module EntityCoverage {
  import opened Options
  import opened FirstBest
  import opened StableSort

  const LINE_CAP := 1000
  const GEOID_LENGTH := 7

  datatype Geoid = Geoid(numeric: bool, length: nat, value: nat)

  datatype Task = Task(
    entityNamespace: nat, geoid: Geoid, state: nat, details: nat, statusKnown: bool, lineBreak: bool, padded: bool)

  datatype Shard = Shard(state: nat, digit: nat)

  type Files = map<Shard, seq<Task>>

  function Pow10(n: nat): nat { if n == 0 then 1 else 10 * Pow10(n - 1) }

  lemma PowersArePositive(n: nat)
    ensures Pow10(n) >= 1
  {
  }

  /** The third digit. */
  function Digit(g: Geoid): nat
    requires g.length >= 3
  {
    PowersArePositive(g.length - 3);
    g.value / Pow10(g.length - 3) % 10
  }

  /** `_relative_shard`: refused for a GEOID that is too short or not numeric. */
  predicate HasShard(t: Task) { t.geoid.length >= 3 && t.geoid.numeric }

  function ShardOf(t: Task): Shard { Shard(t.state, if t.geoid.length >= 3 then Digit(t.geoid) else 0) }

  function InShard(shard: Shard): Task -> bool { (t: Task) => ShardOf(t) == shard }

  function ByGeoid(t: Task): Rank { (t.geoid.value, 0) }

  function ByStateAndGeoid(t: Task): Rank { (t.state, t.geoid.value) }

  /** The key of a task: its namespace and GEOID. */
  function KeyOf(t: Task): Rank { (t.entityNamespace, t.geoid.value) }

  // ---------------------------------------------------------------- writing

  function Shards(tasks: seq<Task>): set<Shard> { set t | t in tasks :: ShardOf(t) }

  ghost predicate Writable(tasks: seq<Task>) {
    && (forall t :: t in tasks ==> HasShard(t) && !t.lineBreak)
    && forall shard :: shard in Shards(tasks) ==> |Filter(InShard(shard), tasks)| + 1 <= LINE_CAP
  }

  function Ordered(rows: seq<Task>): seq<Task> { Sort(ByGeoid, rows) }

  /** What `write_entity_tasks` leaves: each shard's tasks by GEOID, and no other file. */
  function Written(tasks: seq<Task>): Files {
    map shard | shard in Shards(tasks) :: Ordered(Filter(InShard(shard), tasks))
  }

  lemma {:induction false} FilterLast<T>(p: T -> bool, s: seq<T>, i: nat)
    requires i < |s|
    ensures Filter(p, s[..i + 1]) == Filter(p, s[..i]) + Only(p, s[i])
  {
    assert s[..i + 1] == s[..i] + [s[i]];
    FilterAppend(p, s[..i], [s[i]]);
  }

  /** The tasks of each shard, in the order given. */
  ghost predicate Grouped(grouped: Files, tasks: seq<Task>) {
    && grouped.Keys == Shards(tasks)
    && forall shard :: shard in grouped ==> grouped[shard] == Filter(InShard(shard), tasks)
  }

  /** Refused when some task has no shard. */
  method GroupTasks(tasks: seq<Task>) returns (ok: bool, grouped: Files)
    ensures ok <==> forall t :: t in tasks ==> HasShard(t)
    ensures ok ==> Grouped(grouped, tasks)
  {
    grouped := map[];
    assert Grouped(grouped, tasks[..0]);
    for i := 0 to |tasks|
      invariant forall t :: t in tasks[..i] ==> HasShard(t)
      invariant Grouped(grouped, tasks[..i])
    {
      var t := tasks[i];
      assert t in tasks;
      if !HasShard(t) { return false, grouped; }
      assert tasks[..i + 1] == tasks[..i] + [t];
      GroupGrows(tasks, i, grouped);
      grouped := Appended(grouped, ShardOf(t), t);
    }
    assert tasks[..|tasks|] == tasks;
    ok := true;
  }

  function Appended(grouped: Files, shard: Shard, t: Task): Files {
    grouped[shard := (if shard in grouped then grouped[shard] else []) + [t]]
  }

  lemma GroupGrows(tasks: seq<Task>, i: nat, grouped: Files)
    requires i < |tasks| && Grouped(grouped, tasks[..i])
    ensures Grouped(Appended(grouped, ShardOf(tasks[i]), tasks[i]), tasks[..i + 1])
  {
    var shard := ShardOf(tasks[i]);
    var after := Appended(grouped, shard, tasks[i]);
    assert tasks[..i + 1] == tasks[..i] + [tasks[i]];
    assert after.Keys == Shards(tasks[..i + 1]);
    if shard !in grouped { NoneYet(tasks[..i], shard); }
    forall other | other in after ensures after[other] == Filter(InShard(other), tasks[..i + 1]) {
      FilterLast(InShard(other), tasks, i);
      assert InShard(other)(tasks[i]) <==> other == shard;
    }
  }

  lemma NoneYet(tasks: seq<Task>, shard: Shard)
    requires shard !in Shards(tasks)
    ensures Filter(InShard(shard), tasks) == []
  {
    forall t | t in tasks ensures ShardOf(t) != shard {
      assert ShardOf(t) in Shards(tasks);
    }
    FilterNone(InShard(shard), tasks);
  }

  ghost predicate ShardFits(rows: seq<Task>) { |rows| + 1 <= LINE_CAP && forall t :: t in rows ==> !t.lineBreak }

  method Fits(rows: seq<Task>) returns (ok: bool)
    ensures ok <==> ShardFits(rows)
  {
    ok := |rows| + 1 <= LINE_CAP && forall t :: t in rows ==> !t.lineBreak;
  }

  /** Each group in order, or a refusal of a shard that is too long or breaks a line. */
  method WriteShards(grouped: Files) returns (files: Option<Files>)
    ensures files.Some? <==> forall shard :: shard in grouped ==> ShardFits(grouped[shard])
    ensures files.Some? ==> files.value.Keys == grouped.Keys
    ensures files.Some? ==> forall shard :: shard in grouped ==> files.value[shard] == Ordered(grouped[shard])
  {
    var out: Files := map[];
    var todo := grouped.Keys;
    while todo != {}
      invariant todo <= grouped.Keys && out.Keys == grouped.Keys - todo
      invariant forall shard :: shard in out ==> out[shard] == Ordered(grouped[shard])
      invariant forall shard :: shard in out ==> ShardFits(grouped[shard])
      decreases todo
    {
      var shard :| shard in todo;
      var fits := Fits(grouped[shard]);
      if !fits { return None; }
      out := out[shard := Ordered(grouped[shard])];
      todo := todo - {shard};
    }
    files := Some(out);
  }

  lemma GroupsFit(tasks: seq<Task>, grouped: Files)
    requires Grouped(grouped, tasks) && forall t :: t in tasks ==> HasShard(t)
    ensures Writable(tasks) <==> forall shard :: shard in grouped ==> ShardFits(grouped[shard])
  {
    forall shard, t | shard in grouped ensures t in grouped[shard] <==> t in tasks && ShardOf(t) == shard {
      FilterMembers(InShard(shard), tasks, t);
    }
    forall t | t in tasks ensures ShardOf(t) in grouped && t in grouped[ShardOf(t)] {
      assert ShardOf(t) in Shards(tasks);
    }
  }

  /** `write_entity_tasks`. */
  method WriteTasks(tasks: seq<Task>) returns (files: Option<Files>)
    ensures files.Some? <==> Writable(tasks)
    ensures files.Some? ==> files.value == Written(tasks)
  {
    var ok, grouped := GroupTasks(tasks);
    if !ok { return None; }
    GroupsFit(tasks, grouped);
    files := WriteShards(grouped);
    if files.Some? { FilesAreWritten(tasks, grouped, files.value); }
  }

  lemma FilesAreWritten(tasks: seq<Task>, grouped: Files, files: Files)
    requires Grouped(grouped, tasks) && files.Keys == grouped.Keys
    requires forall shard :: shard in grouped ==> files[shard] == Ordered(grouped[shard])
    ensures files == Written(tasks)
  {
  }

  // ---------------------------------------------------------------- loading

  function Stripped(t: Task): Task { t.(padded := false) }

  function StripAll(rows: seq<Task>): (out: seq<Task>)
    ensures |out| == |rows| && forall i :: 0 <= i < |rows| ==> out[i] == Stripped(rows[i])
  {
    seq(|rows|, i requires 0 <= i < |rows| => Stripped(rows[i]))
  }

  /** What loading demands of a row in a shard's file. */
  predicate RowOk(shard: Shard, t: Task) {
    && !t.lineBreak && t.geoid.numeric && t.geoid.length == GEOID_LENGTH && t.statusKnown
    && t.state == shard.state && Digit(t.geoid) == shard.digit
  }

  ghost predicate RowsOk(files: Files) {
    && (forall shard :: shard in files ==> |files[shard]| + 1 <= LINE_CAP)
    && forall shard, t | shard in files && t in files[shard] :: RowOk(shard, t)
  }

  /** The shard rows of this rank live in. */
  function ShardOfRank(k: Rank): Shard {
    if k.0 >= 0 && k.1 >= 0 then Shard(k.0, k.1 / 10000 % 10) else Shard(0, 0)
  }

  lemma DigitOfSeven(g: Geoid)
    requires g.length == GEOID_LENGTH
    ensures Digit(g) == g.value / 10000 % 10
  {
    assert Pow10(4) == 10 * Pow10(3) == 100 * Pow10(2) == 1000 * Pow10(1) == 10000 * Pow10(0);
  }

  lemma RankedInShard(t: Task)
    requires t.geoid.length == GEOID_LENGTH
    ensures ShardOfRank(ByStateAndGeoid(t)) == ShardOf(t)
  {
    DigitOfSeven(t.geoid);
  }

  /** The stripped rows of one rank, in file order. */
  ghost function RowsOfRank(files: Files, k: Rank): seq<Task> {
    if ShardOfRank(k) in files then Filter(Ranked(ByStateAndGeoid, k), StripAll(files[ShardOfRank(k)])) else []
  }

  /** The rows collected from some shards hold exactly those shards' rows, rank by rank. */
  ghost predicate Collected(files: Files, done: set<Shard>, tasks: seq<Task>) {
    forall k: Rank :: Filter(Ranked(ByStateAndGeoid, k), tasks) ==
      if ShardOfRank(k) in done then RowsOfRank(files, k) else []
  }

  lemma OneMoreFile(files: Files, done: set<Shard>, tasks: seq<Task>, shard: Shard)
    requires RowsOk(files) && shard in files && shard !in done && Collected(files, done, tasks)
    ensures Collected(files, done + {shard}, tasks + StripAll(files[shard]))
  {
    var rows := StripAll(files[shard]);
    forall k: Rank ensures Filter(Ranked(ByStateAndGeoid, k), tasks + rows) ==
      if ShardOfRank(k) in done + {shard} then RowsOfRank(files, k) else []
    {
      FilterAppend(Ranked(ByStateAndGeoid, k), tasks, rows);
      if ShardOfRank(k) != shard {
        forall t | t in rows ensures ShardOfRank(ByStateAndGeoid(t)) == shard {
          var i :| 0 <= i < |rows| && rows[i] == t;
          assert RowOk(shard, files[shard][i]);
          RankedInShard(t);
        }
        FilterNone(Ranked(ByStateAndGeoid, k), rows);
      }
    }
  }

  method KeysRepeat(tasks: seq<Task>) returns (repeat: bool)
    ensures repeat <==> !DistinctBy(KeyOf, tasks)
  {
    var keys: set<Rank> := {};
    for i := 0 to |tasks|
      invariant keys == (set j | 0 <= j < i :: KeyOf(tasks[j]))
      invariant forall j, k :: 0 <= j < k < i ==> KeyOf(tasks[j]) != KeyOf(tasks[k])
    {
      if KeyOf(tasks[i]) in keys { return true; }
      keys := keys + {KeyOf(tasks[i])};
    }
    repeat := false;
  }

  method RowsFit(shard: Shard, rows: seq<Task>) returns (ok: bool)
    ensures ok <==> |rows| + 1 <= LINE_CAP && forall t :: t in rows ==> RowOk(shard, t)
  {
    if |rows| + 1 > LINE_CAP { return false; }
    for i := 0 to |rows|
      invariant forall j :: 0 <= j < i ==> RowOk(shard, rows[j])
    {
      assert rows[i] in rows;
      if !RowOk(shard, Stripped(rows[i])) { return false; }
    }
    ok := true;
  }

  /** Every row of every file, or a refusal of a row or file that does not belong. */
  method CollectRows(files: Files) returns (ok: bool, tasks: seq<Task>)
    ensures ok <==> RowsOk(files)
    ensures ok ==> Collected(files, files.Keys, tasks)
  {
    tasks := [];
    var todo := files.Keys;
    ghost var fit := RowsOk(files);
    while todo != {}
      invariant todo <= files.Keys
      invariant forall shard :: shard in files && shard !in todo ==>
        |files[shard]| + 1 <= LINE_CAP && forall t :: t in files[shard] ==> RowOk(shard, t)
      invariant fit ==> Collected(files, files.Keys - todo, tasks)
      decreases todo
    {
      var shard :| shard in todo;
      var rowsOk := RowsFit(shard, files[shard]);
      if !rowsOk { return false, tasks; }
      if fit { OneMoreFile(files, files.Keys - todo, tasks, shard); }
      assert files.Keys - todo + {shard} == files.Keys - (todo - {shard});
      tasks := tasks + StripAll(files[shard]);
      todo := todo - {shard};
    }
    assert files.Keys - todo == files.Keys;
    ok := true;
  }

  /** `load_entity_tasks`: the rows by state and GEOID, keys unique. */
  method LoadTasks(files: Files) returns (tasks: Option<seq<Task>>)
    ensures tasks.Some? ==> RowsOk(files) && Sorted(ByStateAndGeoid, tasks.value)
    ensures tasks.Some? ==> Collected(files, files.Keys, tasks.value) && DistinctBy(KeyOf, tasks.value)
    ensures tasks.None? && RowsOk(files) ==>
      exists rows :: Collected(files, files.Keys, rows) && !DistinctBy(KeyOf, rows)
  {
    var ok, rows := CollectRows(files);
    if !ok { return None; }
    var repeat := KeysRepeat(rows);
    if repeat { return None; }
    var sorted := Sort(ByStateAndGeoid, rows);
    SortSorted(ByStateAndGeoid, rows);
    PermutedDistinct(KeyOf, rows, sorted);
    SortedCollects(files, rows);
    tasks := Some(sorted);
  }

  lemma SortedCollects(files: Files, rows: seq<Task>)
    requires Collected(files, files.Keys, rows)
    ensures Collected(files, files.Keys, Sort(ByStateAndGeoid, rows))
  {
    forall k: Rank ensures Filter(Ranked(ByStateAndGeoid, k), Sort(ByStateAndGeoid, rows)) ==
      Filter(Ranked(ByStateAndGeoid, k), rows)
    {
      SortKeepsOrder(ByStateAndGeoid, Ranked(ByStateAndGeoid, k), rows);
    }
  }

  // ---------------------------------------------------------------- the round trip

  /** Tasks the store can hold: clean fields, seven-digit GEOIDs, distinct keys, shards under the cap. */
  ghost predicate Storable(tasks: seq<Task>) {
    && (forall t :: t in tasks ==>
          t.geoid.numeric && t.geoid.length == GEOID_LENGTH && t.statusKnown && !t.lineBreak && !t.padded)
    && DistinctBy(KeyOf, tasks)
    && forall shard :: shard in Shards(tasks) ==> |Filter(InShard(shard), tasks)| + 1 <= LINE_CAP
  }

  lemma WrittenRows(tasks: seq<Task>, shard: Shard, t: Task)
    requires Storable(tasks) && shard in Shards(tasks)
    ensures t in Written(tasks)[shard] <==> t in tasks && ShardOf(t) == shard
    ensures |Written(tasks)[shard]| == |Filter(InShard(shard), tasks)|
  {
    var group := Filter(InShard(shard), tasks);
    var sorted := Sort(ByGeoid, group);
    assert t in sorted <==> t in multiset(sorted);
    assert t in group <==> t in multiset(group);
    FilterMembers(InShard(shard), tasks, t);
    assert |sorted| == |multiset(sorted)| == |multiset(group)| == |group|;
  }

  lemma WrittenRowsOk(tasks: seq<Task>)
    requires Storable(tasks)
    ensures RowsOk(Written(tasks))
  {
    var files := Written(tasks);
    forall shard, t | shard in files && t in files[shard] ensures RowOk(shard, t) {
      WrittenRows(tasks, shard, t);
    }
    forall shard | shard in files ensures |files[shard]| + 1 <= LINE_CAP {
      WrittenRows(tasks, shard, tasks[0]);
    }
  }

  lemma StripNothing(rows: seq<Task>)
    requires forall t :: t in rows ==> !t.padded
    ensures StripAll(rows) == rows
  {
    forall i | 0 <= i < |rows| ensures StripAll(rows)[i] == rows[i] {
      assert rows[i] in rows;
    }
  }

  /** Rank by rank, the files hold the tasks in the order they were given. */
  lemma WrittenOrder(tasks: seq<Task>, k: Rank)
    requires Storable(tasks)
    ensures RowsOfRank(Written(tasks), k) == Filter(Ranked(ByStateAndGeoid, k), tasks)
  {
    var p, shard := Ranked(ByStateAndGeoid, k), ShardOfRank(k);
    forall t | t in tasks
      ensures p(t) ==> ShardOf(t) == shard
      ensures shard !in Shards(tasks) ==> !p(t)
    {
      RankedInShard(t);
      assert ShardOf(t) in Shards(tasks);
    }
    forall x, y | p(x) && p(y) ensures ByGeoid(x) == ByGeoid(y) {
      assert ByStateAndGeoid(x) == k == ByStateAndGeoid(y);
    }
    if shard in Shards(tasks) {
      WrittenShardOrder(tasks, shard, p);
    } else {
      FilterNone(p, tasks);
    }
  }

  lemma WrittenShardOrder(tasks: seq<Task>, shard: Shard, p: Task -> bool)
    requires Storable(tasks) && shard in Shards(tasks) && OneRank(ByGeoid, p)
    requires forall t :: t in tasks && p(t) ==> ShardOf(t) == shard
    ensures Filter(p, StripAll(Written(tasks)[shard])) == Filter(p, tasks)
  {
    var group := Filter(InShard(shard), tasks);
    forall t | t in Written(tasks)[shard] ensures !t.padded { WrittenRows(tasks, shard, t); }
    StripNothing(Written(tasks)[shard]);
    SortKeepsOrder(ByGeoid, p, group);
    FilterTwice(p, InShard(shard), tasks);
  }

  /** Whatever holds the files' rows, rank by rank and sorted, is the stable sort of the tasks written. */
  lemma RoundTrip(tasks: seq<Task>, rows: seq<Task>)
    requires Storable(tasks) && Collected(Written(tasks), Written(tasks).Keys, rows)
    ensures Sort(ByStateAndGeoid, rows) == Sort(ByStateAndGeoid, tasks)
    ensures DistinctBy(KeyOf, rows)
  {
    SortSorted(ByStateAndGeoid, rows);
    SortSorted(ByStateAndGeoid, tasks);
    forall k: Rank ensures Filter(Ranked(ByStateAndGeoid, k), Sort(ByStateAndGeoid, rows)) ==
      Filter(Ranked(ByStateAndGeoid, k), Sort(ByStateAndGeoid, tasks))
    {
      WrittenOrder(tasks, k);
      SortKeepsOrder(ByStateAndGeoid, Ranked(ByStateAndGeoid, k), rows);
      SortKeepsOrder(ByStateAndGeoid, Ranked(ByStateAndGeoid, k), tasks);
    }
    SortedUnique(ByStateAndGeoid, Sort(ByStateAndGeoid, rows), Sort(ByStateAndGeoid, tasks));
    PermutedDistinct(KeyOf, tasks, rows);
  }

  lemma SortedIsItsSort(rows: seq<Task>)
    requires Sorted(ByStateAndGeoid, rows)
    ensures Sort(ByStateAndGeoid, rows) == rows
  {
    SortSorted(ByStateAndGeoid, rows);
    forall k: Rank ensures Filter(Ranked(ByStateAndGeoid, k), Sort(ByStateAndGeoid, rows)) ==
      Filter(Ranked(ByStateAndGeoid, k), rows)
    {
      SortKeepsOrder(ByStateAndGeoid, Ranked(ByStateAndGeoid, k), rows);
    }
    SortedUnique(ByStateAndGeoid, Sort(ByStateAndGeoid, rows), rows);
  }

  lemma StorableIsWritable(tasks: seq<Task>)
    ensures Storable(tasks) ==> Writable(tasks)
  {
  }

  /** Main result: for storable tasks the staged round trip cannot fail. */
  lemma ReloadsSorted(tasks: seq<Task>, loaded: Option<seq<Task>>)
    requires loaded.Some? ==> Sorted(ByStateAndGeoid, loaded.value)
    requires loaded.Some? ==> Collected(Written(tasks), Written(tasks).Keys, loaded.value)
    requires loaded.None? && RowsOk(Written(tasks)) ==>
      exists rows :: Collected(Written(tasks), Written(tasks).Keys, rows) && !DistinctBy(KeyOf, rows)
    ensures Storable(tasks) ==> loaded == Some(Sort(ByStateAndGeoid, tasks))
  {
    if Storable(tasks) {
      WrittenRowsOk(tasks);
      if loaded.None? {
        var rows :| Collected(Written(tasks), Written(tasks).Keys, rows) && !DistinctBy(KeyOf, rows);
        RoundTrip(tasks, rows);
        assert false;
      }
      RoundTrip(tasks, loaded.value);
      SortedIsItsSort(loaded.value);
    }
  }

  /** The universe on disk. */
  class TaskStore {
    var files: Files

    constructor ()
      ensures files == map[]
    {
      files := map[];
    }

    /** `replace_entity_tasks`: the staged files replace the old ones only if they load back as the sorted
        tasks. For storable tasks they always do, and the store then loads as exactly that list. */
    method Replace(tasks: seq<Task>) returns (ok: bool)
      modifies this
      ensures Storable(tasks) ==> ok
      ensures !ok ==> files == old(files)
      ensures ok ==> files == Written(tasks) && RowsOk(files)
      ensures ok ==> Collected(files, files.Keys, Sort(ByStateAndGeoid, tasks))
    {
      var staged := WriteTasks(tasks);
      if staged.None? { StorableIsWritable(tasks); return false; }
      var loaded := LoadTasks(staged.value);
      ReloadsSorted(tasks, loaded);
      if loaded != Some(Sort(ByStateAndGeoid, tasks)) { return false; }
      files := staged.value;
      ok := true;
    }
  }

  // ---------------------------------------------------------------- column by column

  /** A clean row of this file: a seven-digit GEOID whose third digit and whose state are the file's. */
  ghost predicate Belongs(t: Task, shard: Shard) {
    && t.geoid.numeric && t.geoid.length == 7 && t.geoid.value / 10000 % 10 == shard.digit
    && t.state == shard.state && t.statusKnown && !t.lineBreak
  }

  /** Main result: files load, but for repeated keys, exactly if none holds more than 999 rows and every row
      belongs to its file. */
  lemma RowsOnColumns(files: Files)
    ensures RowsOk(files) <==> forall shard :: shard in files ==>
      |files[shard]| <= 999 && forall t :: t in files[shard] ==> Belongs(t, shard)
  {
    forall shard, t | shard in files && t in files[shard] ensures RowOk(shard, t) <==> Belongs(t, shard) {
      if t.geoid.length == 7 { DigitOfSeven(t.geoid); }
    }
  }

  /** Main result: tasks can be written exactly if every GEOID is a number of three digits or more, no field
      breaks a line, and no shard gets more than 999 of them. */
  lemma WritableOnColumns(tasks: seq<Task>)
    ensures Writable(tasks) <==>
      && (forall t :: t in tasks ==> t.geoid.numeric && t.geoid.length >= 3 && !t.lineBreak)
      && forall t :: t in tasks ==> |Filter(InShard(ShardOf(t)), tasks)| <= 999
  {
    forall t | t in tasks ensures ShardOf(t) in Shards(tasks) {}
  }

  /** The keys of two tasks are the same exactly if namespace and GEOID are. */
  lemma KeysOnColumns(tasks: seq<Task>)
    ensures DistinctBy(KeyOf, tasks) <==> forall i, j :: 0 <= i < j < |tasks| ==>
      tasks[i].entityNamespace != tasks[j].entityNamespace || tasks[i].geoid.value != tasks[j].geoid.value
  {
    forall i | 0 <= i < |tasks| ensures KeyOf(tasks[i]) == (tasks[i].entityNamespace, tasks[i].geoid.value) {}
  }

  /** The loading order: by state, then by GEOID. */
  lemma OrderOnColumns(tasks: seq<Task>)
    ensures Sorted(ByStateAndGeoid, tasks) <==> forall i, j :: 0 <= i < j < |tasks| ==>
      tasks[i].state < tasks[j].state
      || (tasks[i].state == tasks[j].state && tasks[i].geoid.value <= tasks[j].geoid.value)
  {
    forall i | 0 <= i < |tasks| ensures ByStateAndGeoid(tasks[i]) == (tasks[i].state, tasks[i].geoid.value) {}
  }

  /** Main result: the file of a shard holds exactly the shard's tasks, by GEOID, and tasks with the same GEOID
      in the order given. */
  lemma ShardsAreOrdered(tasks: seq<Task>, shard: Shard, value: nat)
    requires shard in Written(tasks)
    ensures var rows := Written(tasks)[shard];
      && (forall i, j :: 0 <= i < j < |rows| ==> rows[i].geoid.value <= rows[j].geoid.value)
      && multiset(rows) == multiset(Filter(InShard(shard), tasks))
      && Filter(Ranked(ByGeoid, (value, 0)), rows) == Filter(Ranked(ByGeoid, (value, 0)), Filter(InShard(shard), tasks))
  {
    var group := Filter(InShard(shard), tasks);
    SortSorted(ByGeoid, group);
    SortKeepsOrder(ByGeoid, Ranked(ByGeoid, (value, 0)), group);
    var rows := Written(tasks)[shard];
    forall i, j | 0 <= i < j < |rows| ensures rows[i].geoid.value <= rows[j].geoid.value {
      assert !Below(ByGeoid(rows[j]), ByGeoid(rows[i]));
    }
  }

  /** Main result: everything loaded is a row of some file with its surrounding blanks gone. */
  lemma LoadedRowsAreStripped(files: Files, tasks: seq<Task>, t: Task)
    requires Collected(files, files.Keys, tasks) && t in tasks
    ensures !t.padded
    ensures exists shard, row :: shard in files && row in files[shard] && t == row.(padded := false)
  {
    var k := ByStateAndGeoid(t);
    FilterMembers(Ranked(ByStateAndGeoid, k), tasks, t);
    assert t in RowsOfRank(files, k);
    var shard := ShardOfRank(k);
    var rows := StripAll(files[shard]);
    FilterMembers(Ranked(ByStateAndGeoid, k), rows, t);
    var i :| 0 <= i < |rows| && rows[i] == t;
    assert files[shard][i] in files[shard];
  }
}
