/**
 Picking the first row of the highest rank, the way `max` with a key does, and rows gathered
 from several sources in order.
 */
module FirstBest {
  import opened Options

  type Rank = (int, int)

  predicate Below(a: Rank, b: Rank) { a.0 < b.0 || (a.0 == b.0 && a.1 < b.1) }

  /** `max(rows, key=rank)`: the first row no other row outranks. */
  function Pick<T>(rank: T -> Rank, rows: seq<T>): Option<T> {
    if rows == [] then None
    else Better(rank, Pick(rank, rows[..|rows| - 1]), Some(rows[|rows| - 1]))
  }

  /** The later candidate wins only with a higher rank. */
  function Better<T>(rank: T -> Rank, a: Option<T>, b: Option<T>): Option<T> {
    if a.None? then b
    else if b.None? then a
    else if Below(rank(a.value), rank(b.value)) then b
    else a
  }

  method PickRow<T>(rank: T -> Rank, rows: seq<T>) returns (best: Option<T>)
    ensures best == Pick(rank, rows)
  {
    best := None;
    for i := 0 to |rows|
      invariant best == Pick(rank, rows[..i])
    {
      assert rows[..i + 1][..i] == rows[..i];
      if best.None? || Below(rank(best.value), rank(rows[i])) { best := Some(rows[i]); }
    }
    assert rows[..|rows|] == rows;
  }

  lemma BetterAssociative<T>(rank: T -> Rank, a: Option<T>, b: Option<T>, c: Option<T>)
    ensures Better(rank, Better(rank, a, b), c) == Better(rank, a, Better(rank, b, c))
  {
  }

  lemma {:induction false} PickAppend<T>(rank: T -> Rank, a: seq<T>, b: seq<T>)
    ensures Pick(rank, a + b) == Better(rank, Pick(rank, a), Pick(rank, b))
    decreases |b|
  {
    if b == [] {
      assert a + b == a;
    } else {
      var n := |b| - 1;
      assert (a + b)[..|a + b| - 1] == a + b[..n];
      PickAppend(rank, a, b[..n]);
      BetterAssociative(rank, Pick(rank, a), Pick(rank, b[..n]), Some(b[n]));
    }
  }

  /** No row outranks row `i`, and no earlier one ranks as high. */
  ghost predicate FirstAt<T(!new)>(rank: T -> Rank, rows: seq<T>, i: nat)
    requires i < |rows|
  {
    && (forall j :: 0 <= j < |rows| ==> !Below(rank(rows[i]), rank(rows[j])))
    && (forall j :: 0 <= j < i ==> Below(rank(rows[j]), rank(rows[i])))
  }

  lemma {:induction false} PickIsFirstBest<T(!new)>(rank: T -> Rank, rows: seq<T>) returns (i: nat)
    requires rows != []
    ensures i < |rows| && Pick(rank, rows) == Some(rows[i]) && FirstAt(rank, rows, i)
    decreases |rows|
  {
    var n := |rows| - 1;
    i := n;
    if n > 0 {
      var most := rows[..n];
      var k := PickIsFirstBest(rank, most);
      if !Below(rank(most[k]), rank(rows[n])) { i := k; }
      forall j | 0 <= j < n ensures !Below(rank(rows[i]), rank(most[j])) {
        assert !Below(rank(most[k]), rank(most[j]));
      }
      forall j | 0 <= j < i ensures Below(rank(most[j]), rank(rows[i])) {
        assert !Below(rank(most[k]), rank(most[j]));
        assert j < k ==> Below(rank(most[j]), rank(most[k]));
      }
    }
  }

  lemma PickDominates<T(!new)>(rank: T -> Rank, rows: seq<T>)
    ensures Pick(rank, rows).Some? <==> rows != []
    ensures rows != [] ==> Pick(rank, rows).value in rows
    ensures forall r :: r in rows ==> !Below(rank(Pick(rank, rows).value), rank(r))
  {
    if rows != [] { var i := PickIsFirstBest(rank, rows); }
  }

  /** Reordering rows can change the pick only among rows of the same rank. */
  lemma PickOfPermuted<T(!new)>(rank: T -> Rank, a: seq<T>, b: seq<T>)
    requires forall r :: r in a <==> r in b
    ensures Pick(rank, a).Some? <==> Pick(rank, b).Some?
    ensures Pick(rank, a).Some? ==> rank(Pick(rank, a).value) == rank(Pick(rank, b).value)
  {
    PickDominates(rank, a);
    PickDominates(rank, b);
    if a != [] { assert a[0] in b; }
    if b != [] { assert b[0] in a; }
  }

  // ---------------------------------------------------------------- rows of several sources

  function Gather<S, T>(rows: S -> seq<T>, sources: seq<S>): seq<T> {
    if sources == [] then [] else rows(sources[0]) + Gather(rows, sources[1..])
  }

  function Flatten<S>(groups: seq<seq<S>>): seq<S> {
    if groups == [] then [] else groups[0] + Flatten(groups[1..])
  }

  lemma {:induction false} GatherAppend<S, T>(rows: S -> seq<T>, a: seq<S>, b: seq<S>)
    ensures Gather(rows, a + b) == Gather(rows, a) + Gather(rows, b)
  {
    if a == [] {
      assert a + b == b;
    } else {
      assert (a + b)[1..] == a[1..] + b;
      GatherAppend(rows, a[1..], b);
    }
  }

  lemma {:induction false} GatherMembers<S(!new), T(!new)>(rows: S -> seq<T>, sources: seq<S>, r: T)
    ensures r in Gather(rows, sources) <==> exists s :: s in sources && r in rows(s)
  {
    if sources != [] {
      GatherMembers(rows, sources[1..], r);
      assert forall s :: s in sources <==> s == sources[0] || s in sources[1..];
    }
  }

  lemma {:induction false} FlattenMembers<S(!new)>(groups: seq<seq<S>>, s: S)
    ensures s in Flatten(groups) <==> exists i :: 0 <= i < |groups| && s in groups[i]
  {
    if groups != [] {
      FlattenMembers(groups[1..], s);
      if exists i :: 0 <= i < |groups[1..]| && s in groups[1..][i] {
        var i :| 0 <= i < |groups[1..]| && s in groups[1..][i];
        assert s in groups[i + 1];
      }
      if exists i :: 0 <= i < |groups| && s in groups[i] {
        var i :| 0 <= i < |groups| && s in groups[i];
        if i > 0 { assert s in groups[1..][i - 1]; }
      }
    }
  }

  function AsSeq<T>(o: Option<T>): seq<T> { if o.None? then [] else [o.value] }

  lemma PickAsSeq<T>(rank: T -> Rank, o: Option<T>)
    ensures Pick(rank, AsSeq(o)) == o
  {
  }

  /** Picking among the picks of contiguous groups is picking among all rows. */
  lemma {:induction false} PickStaged<S(!new), T(!new)>(
    rank: T -> Rank, rows: S -> seq<T>, groups: seq<seq<S>>, merged: seq<S>)
    requires |merged| == |groups|
    requires forall i :: 0 <= i < |groups| ==> rows(merged[i]) == AsSeq(Pick(rank, Gather(rows, groups[i])))
    ensures Pick(rank, Gather(rows, merged)) == Pick(rank, Gather(rows, Flatten(groups)))
  {
    if groups != [] {
      var first, rest := Gather(rows, groups[0]), Gather(rows, Flatten(groups[1..]));
      forall i | 0 <= i < |groups| - 1
        ensures rows(merged[1..][i]) == AsSeq(Pick(rank, Gather(rows, groups[1..][i])))
      {
      }
      PickStaged(rank, rows, groups[1..], merged[1..]);
      GatherAppend(rows, groups[0], Flatten(groups[1..]));
      PickAppend(rank, first, rest);
      PickAppend(rank, rows(merged[0]), Gather(rows, merged[1..]));
      PickAsSeq(rank, Pick(rank, first));
    }
  }
}
