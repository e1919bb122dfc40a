/** Sums of an integer measure over the values of a finite map. */
module Sums {

  ghost function Pick<K, V>(m: map<K, V>): (k: K)
    requires |m| != 0
    ensures k in m
  {
    var k :| k in m.Keys; k
  }

  ghost function Sum<K, V>(m: map<K, V>, f: V -> int): int
    decreases |m|
  {
    if |m| == 0 then 0
    else
      var k := Pick(m);
      assert |m - {k}| < |m| by { SmallerWithout(m, k); }
      f(m[k]) + Sum(m - {k}, f)
  }

  lemma SmallerWithout<K, V>(m: map<K, V>, k: K)
    requires k in m
    ensures |m - {k}| == |m| - 1
  {
    assert m.Keys == (m - {k}).Keys + {k};
    assert |m.Keys| == |m| && |(m - {k}).Keys| == |m - {k}|;
  }

  /** Any key may be taken out first. */
  lemma {:induction false} SumRemove<K, V>(m: map<K, V>, k: K, f: V -> int)
    requires k in m
    ensures Sum(m, f) == f(m[k]) + Sum(m - {k}, f)
    decreases |m|
  {
    var p := Pick(m);
    if p != k {
      SmallerWithout(m, p);
      SmallerWithout(m, k);
      SumRemove(m - {p}, k, f);
      SumRemove(m - {k}, p, f);
      assert m - {p} - {k} == m - {k} - {p};
    }
  }

  lemma SumUpdate<K, V>(m: map<K, V>, k: K, v: V, f: V -> int)
    ensures Sum(m[k := v], f) == Sum(m, f) + f(v) - (if k in m then f(m[k]) else 0)
  {
    SumRemove(m[k := v], k, f);
    if k in m {
      SumRemove(m, k, f);
      assert m[k := v] - {k} == m - {k};
    } else {
      assert m[k := v] - {k} == m;
    }
  }

  lemma {:induction false} SumNonNegative<K, V>(m: map<K, V>, f: V -> int)
    requires forall k :: k in m ==> f(m[k]) >= 0
    ensures Sum(m, f) >= 0
    decreases |m|
  {
    if |m| != 0 {
      var p := Pick(m);
      SmallerWithout(m, p);
      SumNonNegative(m - {p}, f);
    }
  }

  /** A measure that is the same combination of two others everywhere is so in total. */
  lemma {:induction false} SumLinear<K, V>(m: map<K, V>, f: V -> int, g: V -> int, h: V -> int, c: int)
    requires forall k :: k in m ==> f(m[k]) == g(m[k]) + c * h(m[k])
    ensures Sum(m, f) == Sum(m, g) + c * Sum(m, h)
    decreases |m|
  {
    if |m| != 0 {
      var p := Pick(m);
      SmallerWithout(m, p);
      SumRemove(m, p, g);
      SumRemove(m, p, h);
      SumLinear(m - {p}, f, g, h, c);
      assert c * (h(m[p]) + Sum(m - {p}, h)) == c * h(m[p]) + c * Sum(m - {p}, h);
    }
  }

  lemma {:induction false} SumZero<K, V>(m: map<K, V>, f: V -> int)
    requires forall k :: k in m ==> f(m[k]) == 0
    ensures Sum(m, f) == 0
    decreases |m|
  {
    if |m| != 0 {
      var p := Pick(m);
      SmallerWithout(m, p);
      SumZero(m - {p}, f);
    }
  }
}
