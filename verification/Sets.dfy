/** Facts about finite sets that several proofs share. */
module Sets {

  lemma Member<T>(xs: set<T>) returns (x: T)
    requires |xs| != 0
    ensures x in xs
  {
    x :| x in xs;
  }

  lemma {:induction false} Largest(ids: set<int>) returns (m: int)
    requires |ids| != 0
    ensures m in ids && forall id :: id in ids ==> id <= m
    decreases |ids|
  {
    m := Member(ids);
    var rest := ids - {m};
    assert forall id :: id in ids ==> id == m || id in rest;
    if |rest| != 0 {
      var m' := Largest(rest);
      m := if m > m' then m else m';
    }
  }

  lemma Least(ids: set<int>) returns (m: int)
    requires |ids| != 0
    ensures m in ids && forall id :: id in ids ==> m <= id
  {
    var x := Member(ids);
    var opposites := set id | id in ids :: -id;
    assert -x in opposites;
    var n := Largest(opposites);
    m := -n;
    assert forall id :: id in ids ==> -id in opposites;
  }

  lemma OneMore<T>(xs: set<T>, x: T)
    requires x !in xs
    ensures |xs + {x}| == |xs| + 1
  {
  }

  lemma SubsetSize<T>(a: set<T>, b: set<T>)
    requires a <= b
    ensures |a| <= |b| && (|a| == |b| ==> a == b)
  {
    assert a + (b - a) == b;
    assert |b| == |a| + |b - a|;
    if |a| == |b| {
      assert |b - a| == 0;
    }
  }

  /** Any element: the iteration order of a Go map is unspecified. */
  method Pick<T(==)>(xs: set<T>) returns (x: T)
    requires |xs| != 0
    ensures x in xs
  {
    x :| x in xs;
  }

  method Smallest(ids: set<int>) returns (m: int)
    requires |ids| != 0
    ensures m in ids && forall id :: id in ids ==> m <= id
  {
    m := Pick(ids);
    var rest := ids - {m};
    while |rest| != 0
      invariant m in ids && rest <= ids
      invariant forall id :: id in ids ==> id in rest || m <= id
      decreases |rest|
    {
      var x := Pick(rest);
      if x < m {
        m := x;
      }
      rest := rest - {x};
    }
  }
}
