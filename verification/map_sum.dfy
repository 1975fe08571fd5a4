/**
 * The sum of the integer values of a finite map, used to state that moving one
 * unit between two entries of a counter map leaves the total unchanged.
 */
module MapSum {

  ghost function SumValues<K>(m: map<K, int>): int
    decreases |m|
  {
    if |m| == 0 then 0
    else
      var k :| k in m;
      m[k] + SumValues(m - {k})
  }

  /** The key SumValues takes out first. */
  lemma Chosen<K>(m: map<K, int>) returns (j: K)
    requires |m| > 0
    ensures j in m && SumValues(m) == m[j] + SumValues(m - {j})
  {
    j :| j in m && SumValues(m) == m[j] + SumValues(m - {j});
  }

  /** Any key can be taken out first. */
  lemma {:induction false} SumRemove<K>(m: map<K, int>, k: K)
    requires k in m
    ensures SumValues(m) == m[k] + SumValues(m - {k})
    decreases |m|
  {
    var j := Chosen(m);
    if j != k {
      var mj, mk := m - {j}, m - {k};
      assert mj.Keys == m.Keys - {j} && mk.Keys == m.Keys - {k};
      assert |mj| < |m| && |mk| < |m|;
      SumRemove(mj, k);
      SumRemove(mk, j);
      assert mj - {k} == mk - {j};
    }
  }

  /** Overwriting one entry changes the sum by the difference. */
  lemma SumUpdate<K>(m: map<K, int>, k: K, v: int)
    ensures SumValues(m[k := v]) == SumValues(m) - (if k in m then m[k] else 0) + v
  {
    var m' := m[k := v];
    SumRemove(m', k);
    assert m' - {k} == m - {k};
    if k in m {
      SumRemove(m, k);
    } else {
      assert m - {k} == m;
    }
  }

  /** Moving one entry from `before` to `before + delta` (a missing entry counts as 0) moves the sum by `delta`. */
  lemma SumAfterBump<K>(m: map<K, int>, m': map<K, int>, k: K, before: int, delta: int)
    requires m' == m[k := before + delta]
    requires k in m ==> m[k] == before
    requires k !in m ==> before == 0
    ensures SumValues(m') == SumValues(m) + delta
  {
    SumUpdate(m, k, before + delta);
  }
}
