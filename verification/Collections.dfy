/** Finite sets and sums over maps, for the counting arguments of the other modules. */
module Collections {
  lemma HasMember<T>(s: set<T>)
    requires s != {}
    ensures exists x :: x in s
  {
    if !exists x :: x in s { assert false; }
  }

  method PickFrom<T(==)>(s: set<T>) returns (x: T)
    requires s != {}
    ensures x in s
  {
    HasMember(s);
    x :| x in s;
  }

  lemma OneMore<T>(a: set<T>, b: set<T>, x: T)
    requires x !in a && x in b
    requires forall y :: y != x ==> (y in b <==> y in a)
    ensures |b| == |a| + 1
  {
    assert b == a + {x};
  }

  lemma SameMembers<T>(a: set<T>, b: set<T>)
    requires forall y :: y in b <==> y in a
    ensures a == b
  {
  }

  /** The numbers lo, .., hi - 1 under an injection count hi - lo. */
  lemma {:induction false} IntervalSize<T>(f: int -> T, lo: int, hi: int, s: set<T>)
    requires lo <= hi
    requires forall i, j :: lo <= i < j < hi ==> f(i) != f(j)
    requires forall i :: lo <= i < hi ==> f(i) in s
    requires forall x :: x in s ==> exists i :: lo <= i < hi && f(i) == x
    ensures |s| == hi - lo
    decreases hi - lo
  {
    if lo == hi {
      if s != {} { HasMember(s); assert false; }
    } else {
      var last := f(hi - 1);
      forall x | x in s - {last} ensures exists i :: lo <= i < hi - 1 && f(i) == x {
        var i :| lo <= i < hi && f(i) == x;
        assert i != hi - 1;
      }
      IntervalSize(f, lo, hi - 1, s - {last});
    }
  }

  ghost function Sum<K>(m: map<K, int>): int {
    if m.Keys == {} then 0 else
      HasMember(m.Keys);
      var k :| k in m.Keys;
      m[k] + Sum(m - {k})
  }

  /** The sum does not depend on which key is taken out first. */
  lemma {:induction false} SumTakeOut<K>(m: map<K, int>, k: K)
    requires k in m
    ensures Sum(m) == m[k] + Sum(m - {k})
    decreases |m|
  {
    HasMember(m.Keys);
    var j :| j in m.Keys && Sum(m) == m[j] + Sum(m - {j});
    if j != k {
      SumTakeOut(m - {j}, k);
      SumTakeOut(m - {k}, j);
      assert m - {j} - {k} == m - {k} - {j};
    }
  }

  lemma SumUpdate<K>(m: map<K, int>, k: K, v: int)
    ensures Sum(m[k := v]) == Sum(m) - (if k in m then m[k] else 0) + v
  {
    SumTakeOut(m[k := v], k);
    assert m[k := v] - {k} == m - {k};
    if k in m {
      SumTakeOut(m, k);
    } else {
      assert m - {k} == m;
    }
  }
}
