/** Facts about finite sets and maps. */
module Collections {

  lemma SomeInt(s: set<int>)
    ensures s != {} ==> exists x :: x in s
  {
    if forall x :: x !in s {
      assert s == {};
    }
  }

  lemma SomeString(s: set<string>)
    ensures s != {} ==> exists x :: x in s
  {
    if forall x :: x !in s {
      assert s == {};
    }
  }

  lemma SubsetSize<T>(a: set<T>, b: set<T>)
    requires a <= b
    ensures |a| <= |b|
  {
    assert b == a + (b - a);
  }

  /** A set of integers inside an interval is no larger than the interval. */
  lemma IntervalSize(indices: set<int>, lo: int, n: nat)
    requires forall i :: i in indices ==> lo <= i < lo + n
    ensures |indices| <= n
    decreases n
  {
    if n == 0 {
      assert forall i :: i !in indices;
    } else {
      var rest := indices - {lo + n - 1};
      IntervalSize(rest, lo, n - 1);
      assert indices <= rest + {lo + n - 1};
      SubsetSize(indices, rest + {lo + n - 1});
    }
  }

  ghost function Interval(lo: int, n: nat): (indices: set<int>)
    ensures forall i :: i in indices <==> lo <= i < lo + n
    ensures |indices| == n
  {
    if n == 0 then {} else Interval(lo, n - 1) + {lo + n - 1}
  }

  lemma {:induction false} Least(s: set<int>) returns (m: int)
    requires s != {}
    ensures m in s && forall i :: i in s ==> m <= i
  {
    SomeInt(s);
    m :| m in s;
    var below := s - {m};
    assert s == below + {m};
    if below != {} {
      var other := Least(below);
      m := if m < other then m else other;
    }
  }

  lemma SameMap<V>(a: map<int, V>, b: map<int, V>)
    requires a.Keys == b.Keys && forall key :: key in a ==> a[key] == b[key]
    ensures a == b
  {
    assert a.Keys == b.Keys;
    assert forall key :: key in a ==> a[key] == b[key];
  }
}
