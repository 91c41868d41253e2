/**
 Sums of non-negative weights over sets and lists.
 */
module SetSums {

  ghost function SetSum<T(!new)>(s: set<T>, w: T -> nat): nat {
    if s == {} then 0
    else
      var x :| x in s;
      w(x) + SetSum(s - {x}, w)
  }

  /** The sum does not depend on which element is taken first. */
  lemma {:induction false} SumWithout<T(!new)>(s: set<T>, w: T -> nat, x: T)
    requires x in s
    ensures SetSum(s, w) == w(x) + SetSum(s - {x}, w)
    decreases |s|
  {
    var y :| y in s && SetSum(s, w) == w(y) + SetSum(s - {y}, w);
    if y != x {
      SumWithout(s - {y}, w, x);
      SumWithout(s - {x}, w, y);
      assert s - {y} - {x} == s - {x} - {y};
    }
  }

  lemma SumWith<T(!new)>(s: set<T>, w: T -> nat, x: T)
    ensures SetSum(s + {x}, w) == SetSum(s, w) + if x in s then 0 else w(x)
  {
    if x in s {
      assert s + {x} == s;
    } else {
      SumWithout(s + {x}, w, x);
      assert s + {x} - {x} == s;
    }
  }

  lemma {:induction false} SumOfSubset<T(!new)>(a: set<T>, b: set<T>, w: T -> nat)
    requires a <= b
    ensures SetSum(a, w) <= SetSum(b, w)
    decreases |a|
  {
    if a != {} {
      var x :| x in a;
      SumWithout(a, w, x);
      SumWithout(b, w, x);
      SumOfSubset(a - {x}, b - {x}, w);
    }
  }

  lemma {:induction false} SumOfUnion<T(!new)>(a: set<T>, b: set<T>, w: T -> nat)
    ensures SetSum(a + b, w) <= SetSum(a, w) + SetSum(b, w)
    decreases |b|
  {
    if b == {} {
      assert a + b == a;
    } else {
      var x :| x in b;
      SumOfUnion(a, b - {x}, w);
      SumWithout(b, w, x);
      assert a + b == a + (b - {x}) + {x};
      SumWith(a + (b - {x}), w, x);
    }
  }

  lemma {:induction false} SubsetSize<T>(a: set<T>, b: set<T>)
    requires a <= b
    ensures |a| <= |b|
  {
    if a != {} {
      var x :| x in a;
      SubsetSize(a - {x}, b - {x});
    }
  }

  function SeqSum<T>(s: seq<T>, w: T -> nat): nat {
    if s == [] then 0 else SeqSum(s[..|s| - 1], w) + w(s[|s| - 1])
  }

  ghost predicate NoRepeats<T(!new)>(s: seq<T>) { forall i, j :: 0 <= i < j < |s| ==> s[i] != s[j] }

  ghost function Members<T(!new)>(s: seq<T>): set<T> { set x | x in s }

  lemma {:induction false} SeqSumIsSetSum<T(!new)>(s: seq<T>, w: T -> nat)
    requires NoRepeats(s)
    ensures SeqSum(s, w) == SetSum(Members(s), w)
    decreases |s|
  {
    if s != [] {
      var most, x := s[..|s| - 1], s[|s| - 1];
      assert s == most + [x];
      SeqSumIsSetSum(most, w);
      assert x !in most;
      assert Members(s) == Members(most) + {x};
      SumWith(Members(most), w, x);
    }
  }

  lemma {:induction false} SumOfMembers<T(!new)>(s: seq<T>, w: T -> nat)
    ensures SetSum(Members(s), w) <= SeqSum(s, w)
    decreases |s|
  {
    if s != [] {
      var most, x := s[..|s| - 1], s[|s| - 1];
      assert s == most + [x];
      SumOfMembers(most, w);
      assert Members(s) == Members(most) + {x};
      SumWith(Members(most), w, x);
    }
  }
}
