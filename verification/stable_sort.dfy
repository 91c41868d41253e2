/**
 Stable sorting: a sorted list is determined by the order of the rows within each rank.
 */
module StableSort {
  import opened FirstBest

  ghost predicate Sorted<T(!new)>(rank: T -> Rank, s: seq<T>) {
    forall i, j :: 0 <= i < j < |s| ==> !Below(rank(s[j]), rank(s[i]))
  }

  /** Before the first row that does not rank lower. */
  function Place<T>(rank: T -> Rank, x: T, s: seq<T>): (out: seq<T>)
    ensures multiset(out) == multiset(s) + multiset{x}
  {
    if s == [] then [x]
    else if !Below(rank(s[0]), rank(x)) then [x] + s
    else
      assert s == [s[0]] + s[1..];
      [s[0]] + Place(rank, x, s[1..])
  }

  /** `sorted(rows, key=rank)`. */
  function Sort<T>(rank: T -> Rank, s: seq<T>): (out: seq<T>)
    ensures multiset(out) == multiset(s)
  {
    if s == [] then []
    else
      assert s == [s[0]] + s[1..];
      Place(rank, s[0], Sort(rank, s[1..]))
  }

  function Only<T>(p: T -> bool, x: T): seq<T> { if p(x) then [x] else [] }

  function Filter<T>(p: T -> bool, s: seq<T>): seq<T> {
    if s == [] then [] else Only(p, s[0]) + Filter(p, s[1..])
  }

  lemma {:induction false} PlaceSorted<T(!new)>(rank: T -> Rank, x: T, s: seq<T>)
    requires Sorted(rank, s)
    ensures Sorted(rank, Place(rank, x, s))
  {
    if s != [] && Below(rank(s[0]), rank(x)) {
      PlaceSorted(rank, x, s[1..]);
      var rest := Place(rank, x, s[1..]);
      forall j | 0 <= j < |rest| ensures !Below(rank(rest[j]), rank(s[0])) {
        assert rest[j] in multiset(rest);
        assert rest[j] == x || rest[j] in s[1..];
      }
    }
  }

  lemma {:induction false} SortSorted<T(!new)>(rank: T -> Rank, s: seq<T>)
    ensures Sorted(rank, Sort(rank, s))
  {
    if s != [] {
      SortSorted(rank, s[1..]);
      PlaceSorted(rank, s[0], Sort(rank, s[1..]));
    }
  }

  /** Rows of one rank keep their order. */
  ghost predicate OneRank<T(!new)>(rank: T -> Rank, p: T -> bool) { forall x, y :: p(x) && p(y) ==> rank(x) == rank(y) }

  lemma FilterCons<T>(p: T -> bool, x: T, s: seq<T>)
    ensures Filter(p, [x] + s) == Only(p, x) + Filter(p, s)
  {
    assert ([x] + s)[1..] == s;
  }

  lemma EitherFirst<T>(a: seq<T>, b: seq<T>, c: seq<T>)
    requires a == [] || b == []
    ensures a + (b + c) == b + (a + c)
  {
  }

  lemma {:induction false} PlaceKeepsOrder<T(!new)>(rank: T -> Rank, p: T -> bool, x: T, s: seq<T>)
    requires OneRank(rank, p)
    ensures Filter(p, Place(rank, x, s)) == Only(p, x) + Filter(p, s)
  {
    if s != [] && Below(rank(s[0]), rank(x)) {
      PlaceKeepsOrder(rank, p, x, s[1..]);
      FilterCons(p, s[0], Place(rank, x, s[1..]));
      assert !(p(x) && p(s[0]));
      EitherFirst(Only(p, x), Only(p, s[0]), Filter(p, s[1..]));
    } else {
      assert Place(rank, x, s) == [x] + s;
      FilterCons(p, x, s);
    }
  }

  lemma {:induction false} SortKeepsOrder<T(!new)>(rank: T -> Rank, p: T -> bool, s: seq<T>)
    requires OneRank(rank, p)
    ensures Filter(p, Sort(rank, s)) == Filter(p, s)
  {
    if s != [] {
      SortKeepsOrder(rank, p, s[1..]);
      PlaceKeepsOrder(rank, p, s[0], Sort(rank, s[1..]));
    }
  }

  function Ranked<T>(rank: T -> Rank, k: Rank): T -> bool { x => rank(x) == k }

  lemma {:induction false} FilterHead<T(!new)>(p: T -> bool, s: seq<T>)
    requires Filter(p, s) != []
    ensures Filter(p, s)[0] in s && p(Filter(p, s)[0])
  {
    if !p(s[0]) { FilterHead(p, s[1..]); }
  }

  /** Some row ranks as high as the first row of the other list. */
  lemma SameHead<T(!new)>(rank: T -> Rank, a: seq<T>, b: seq<T>)
    requires Sorted(rank, a) && Sorted(rank, b) && a != []
    requires forall k: Rank :: Filter(Ranked(rank, k), a) == Filter(Ranked(rank, k), b)
    ensures b != [] && a[0] == b[0]
  {
    var k := rank(a[0]);
    assert Filter(Ranked(rank, k), a)[0] == a[0];
    FilterHead(Ranked(rank, k), b);
    var m := rank(b[0]);
    assert Filter(Ranked(rank, m), b)[0] == b[0];
    FilterHead(Ranked(rank, m), a);
    assert !Below(m, k) && !Below(k, m);
    assert m == k;
  }

  /** Main fact: two sorted lists whose rows agree within every rank are the same list. */
  lemma {:induction false} SortedUnique<T(!new)>(rank: T -> Rank, a: seq<T>, b: seq<T>)
    requires Sorted(rank, a) && Sorted(rank, b)
    requires forall k: Rank :: Filter(Ranked(rank, k), a) == Filter(Ranked(rank, k), b)
    ensures a == b
  {
    if a == [] {
      if b != [] { SameHead(rank, b, a); }
    } else {
      SameHead(rank, a, b);
      forall k: Rank ensures Filter(Ranked(rank, k), a[1..]) == Filter(Ranked(rank, k), b[1..]) {
        var head := Only(Ranked(rank, k), a[0]);
        assert Filter(Ranked(rank, k), a) == head + Filter(Ranked(rank, k), a[1..]);
        assert Filter(Ranked(rank, k), b) == head + Filter(Ranked(rank, k), b[1..]);
        assert Filter(Ranked(rank, k), a[1..]) == Filter(Ranked(rank, k), a)[|head|..];
        assert Filter(Ranked(rank, k), b[1..]) == Filter(Ranked(rank, k), b)[|head|..];
      }
      SortedUnique(rank, a[1..], b[1..]);
    }
  }

  lemma {:induction false} FilterAppend<T>(p: T -> bool, a: seq<T>, b: seq<T>)
    ensures Filter(p, a + b) == Filter(p, a) + Filter(p, b)
  {
    if a == [] {
      assert a + b == b;
    } else {
      assert (a + b)[0] == a[0] && (a + b)[1..] == a[1..] + b;
      FilterAppend(p, a[1..], b);
      var head := Only(p, a[0]);
      assert Filter(p, a + b) == head + (Filter(p, a[1..]) + Filter(p, b));
      assert Filter(p, a) == head + Filter(p, a[1..]);
    }
  }

  lemma {:induction false} FilterNone<T(!new)>(p: T -> bool, s: seq<T>)
    requires forall x :: x in s ==> !p(x)
    ensures Filter(p, s) == []
  {
    if s != [] { FilterNone(p, s[1..]); }
  }

  lemma {:induction false} FilterMembers<T(!new)>(p: T -> bool, s: seq<T>, x: T)
    ensures x in Filter(p, s) <==> x in s && p(x)
  {
    if s != [] { FilterMembers(p, s[1..], x); }
  }

  /** Filtering for `p` what was filtered for something wider changes nothing. */
  lemma {:induction false} FilterTwice<T(!new)>(p: T -> bool, q: T -> bool, s: seq<T>)
    requires forall x :: x in s && p(x) ==> q(x)
    ensures Filter(p, Filter(q, s)) == Filter(p, s)
  {
    if s != [] {
      FilterTwice(p, q, s[1..]);
      FilterAppend(p, Only(q, s[0]), Filter(q, s[1..]));
    }
  }

  // ---------------------------------------------------------------- permutations

  lemma TwiceCounted<T>(s: seq<T>, i: int, j: int)
    requires 0 <= i < j < |s| && s[i] == s[j]
    ensures multiset(s)[s[i]] >= 2
  {
    assert s == s[..j] + [s[j]] + s[j + 1..];
    assert s[..j][i] in s[..j];
  }

  lemma {:induction false} CountedTwice<T>(s: seq<T>, x: T) returns (i: nat, j: nat)
    requires multiset(s)[x] >= 2
    ensures i < j < |s| && s[i] == s[j] == x
  {
    var n := |s| - 1;
    assert s == s[..n] + [s[n]];
    if multiset(s[..n])[x] >= 2 {
      i, j := CountedTwice(s[..n], x);
    } else {
      assert x in multiset(s[..n]);
      i :| 0 <= i < n && s[..n][i] == x;
      j := n;
    }
  }

  ghost predicate DistinctBy<T(!new)>(key: T -> Rank, s: seq<T>) {
    forall i, j :: 0 <= i < j < |s| ==> key(s[i]) != key(s[j])
  }

  /** Reordering rows keeps their keys distinct. */
  lemma PermutedDistinct<T(!new)>(key: T -> Rank, a: seq<T>, b: seq<T>)
    requires DistinctBy(key, a) && multiset(a) == multiset(b)
    ensures DistinctBy(key, b)
  {
    forall i, j | 0 <= i < j < |b| ensures key(b[i]) != key(b[j]) {
      assert b[i] in multiset(b) && b[j] in multiset(b);
      assert b[i] in a && b[j] in a;
      if b[i] == b[j] {
        TwiceCounted(b, i, j);
        var p, q := CountedTwice(a, b[i]);
      } else {
        var p :| 0 <= p < |a| && a[p] == b[i];
        var q :| 0 <= q < |a| && a[q] == b[j];
        assert key(a[p]) != key(a[q]) by {
          if p < q {} else { assert q < p; }
        }
      }
    }
  }
}
