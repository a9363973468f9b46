/** Sums over the values of a finite map. */
module Sums {

  ghost function Sum<V>(m: map<string, V>, g: V -> int): int {
    if m == map[] then 0
    else
      var k :| k in m;
      g(m[k]) + Sum(m - {k}, g)
  }

  /** The sum does not depend on which key is taken first. */
  lemma {:induction false} SumRemove<V>(m: map<string, V>, k: string, g: V -> int)
    requires k in m
    ensures Sum(m, g) == g(m[k]) + Sum(m - {k}, g)
    decreases |m|
  {
    var j :| j in m && Sum(m, g) == g(m[j]) + Sum(m - {j}, g);
    if j != k {
      SumRemove(m - {j}, k, g);
      SumRemove(m - {k}, j, g);
      assert m - {j} - {k} == m - {k} - {j};
    }
  }

  lemma SumUpdate<V>(m: map<string, V>, k: string, v: V, g: V -> int)
    ensures Sum(m[k := v], g) == (if k in m then Sum(m, g) - g(m[k]) else Sum(m, g)) + g(v)
  {
    SumRemove(m[k := v], k, g);
    assert m[k := v] - {k} == m - {k};
    if k in m { SumRemove(m, k, g); } else { assert m - {k} == m; }
  }

  lemma {:induction false} SumNonNegative<V>(m: map<string, V>, g: V -> int)
    requires forall k :: k in m ==> g(m[k]) >= 0
    ensures Sum(m, g) >= 0
    decreases |m|
  {
    if m != map[] {
      var j :| j in m && Sum(m, g) == g(m[j]) + Sum(m - {j}, g);
      SumNonNegative(m - {j}, g);
    }
  }

  /** One value is at most the sum when no value is negative. */
  lemma SumAtLeast<V>(m: map<string, V>, k: string, g: V -> int)
    requires k in m && forall j :: j in m ==> g(m[j]) >= 0
    ensures g(m[k]) <= Sum(m, g)
  {
    SumRemove(m, k, g);
    SumNonNegative(m - {k}, g);
  }

  lemma {:induction false} SumSame<V>(m: map<string, V>, g: V -> int, h: V -> int)
    requires forall k :: k in m ==> g(m[k]) == h(m[k])
    ensures Sum(m, g) == Sum(m, h)
    decreases |m|
  {
    if m != map[] {
      var j :| j in m && Sum(m, g) == g(m[j]) + Sum(m - {j}, g);
      SumRemove(m, j, h);
      SumSame(m - {j}, g, h);
    }
  }

  lemma {:induction false} SumAtMost<V>(m: map<string, V>, g: V -> int, h: V -> int)
    requires forall k :: k in m ==> g(m[k]) <= h(m[k])
    ensures Sum(m, g) <= Sum(m, h)
    decreases |m|
  {
    if m != map[] {
      var j :| j in m && Sum(m, g) == g(m[j]) + Sum(m - {j}, g);
      SumRemove(m, j, h);
      SumAtMost(m - {j}, g, h);
    }
  }

  /** Keys whose value counts for nothing may come and go. */
  lemma {:induction false} SumOfPart<V>(m: map<string, V>, part: map<string, V>, g: V -> int)
    requires part.Keys <= m.Keys
    requires forall k :: k in m ==> g(m[k]) == if k in part then g(part[k]) else 0
    ensures Sum(m, g) == Sum(part, g)
    decreases |m|
  {
    if m != map[] {
      var j :| j in m && Sum(m, g) == g(m[j]) + Sum(m - {j}, g);
      if j in part {
        SumRemove(part, j, g);
        SumOfPart(m - {j}, part - {j}, g);
      } else {
        SumOfPart(m - {j}, part, g);
      }
    }
  }
}
