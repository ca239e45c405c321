/** Sums of the values of a finite map, for statements about totals of bytes. */
module MapSums {

  ghost function Sum<K>(m: map<K, nat>): nat
    decreases |m|
  {
    if m == map[] then
      0
    else
      var k :| k in m;
      m[k] + Sum(m - {k})
  }

  lemma {:induction false} SumRemove<K>(m: map<K, nat>, k: K)
    requires k in m
    ensures Sum(m) == m[k] + Sum(m - {k})
    decreases |m|
  {
    var j :| j in m && Sum(m) == m[j] + Sum(m - {j});
    if j != k {
      SumRemove(m - {j}, k);
      SumRemove(m - {k}, j);
      assert m - {j} - {k} == m - {k} - {j};
    }
  }

  lemma SumUpdate<K>(m: map<K, nat>, k: K, v: nat)
    ensures k in m ==> Sum(m[k := v]) + m[k] == Sum(m) + v
    ensures k !in m ==> Sum(m[k := v]) == Sum(m) + v
  {
    SumRemove(m[k := v], k);
    assert m[k := v] - {k} == m - {k};
    if k in m {
      SumRemove(m, k);
    } else {
      assert m - {k} == m;
    }
  }

  ghost function Only<K>(m: map<K, nat>, part: set<K>): map<K, nat> {
    map k | k in m && k in part :: m[k]
  }

  /** Splitting a map by a set of keys splits its sum. */
  lemma {:induction false} SumSplit<K>(m: map<K, nat>, part: set<K>)
    ensures Sum(m) == Sum(Only(m, part)) + Sum(m - part)
    decreases |m|
  {
    var inside := Only(m, part);
    if m == map[] {
      assert inside == map[];
      assert m - part == map[];
    } else {
      var k :| k in m;
      var rest := m - {k};
      SumSplit(rest, part);
      SumRemove(m, k);
      var insideRest := Only(rest, part);
      if k in part {
        SumRemove(inside, k);
        assert inside - {k} == insideRest;
        assert m - part == rest - part;
      } else {
        assert inside == insideRest;
        SumRemove(m - part, k);
        assert m - part - {k} == rest - part;
      }
    }
  }
}
