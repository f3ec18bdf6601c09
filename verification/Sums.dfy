/** Sums of the values of a finite map.  The order in which keys are visited does not matter. */
module Sums {

  ghost function Sum(m: map<string, real>): real
    decreases |m|
  {
    if m == map[] then 0.0 else
      var k :| k in m;
      m[k] + Sum(m - {k})
  }

  /** Any key may be taken out first. */
  lemma {:induction false} SumPick(m: map<string, real>, k: string)
    requires k in m
    ensures Sum(m) == m[k] + Sum(m - {k})
    decreases |m|
  {
    var j :| j in m && Sum(m) == m[j] + Sum(m - {j});
    if j != k {
      SumPick(m - {j}, k);
      SumPick(m - {k}, j);
      assert m - {j} - {k} == m - {k} - {j};
    }
  }

  /** Overwriting one entry shifts the sum by the difference. */
  lemma SumUpdate(m: map<string, real>, k: string, v: real)
    ensures Sum(m[k := v]) == Sum(m) + v - (if k in m then m[k] else 0.0)
  {
    SumPick(m[k := v], k);
    assert m[k := v] - {k} == m - {k};
    if k in m {
      SumPick(m, k);
    } else {
      assert m - {k} == m;
    }
  }

  /** Taking one entry out lowers the sum by its value. */
  lemma SumRemove(m: map<string, real>, k: string)
    ensures Sum(m - {k}) == Sum(m) - (if k in m then m[k] else 0.0)
  {
    if k in m {
      SumPick(m, k);
    } else {
      assert m - {k} == m;
    }
  }

  /** Visiting one more key: what is outside `left` grows by that key's entry, if it has one. */
  lemma VisitKey(m: map<string, real>, left: set<string>, k: string)
    requires k in left
    ensures k in m ==> m - (left - {k}) == (m - left)[k := m[k]] && Sum(m - (left - {k})) == Sum(m - left) + m[k]
    ensures k !in m ==> m - (left - {k}) == m - left
  {
    if k in m {
      assert m - (left - {k}) == (m - left)[k := m[k]];
      SumUpdate(m - left, k, m[k]);
    } else {
      assert m - (left - {k}) == m - left;
    }
  }
}
