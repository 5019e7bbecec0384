/** The fold both cart totals are built on: the sum of the values of a
    product-keyed map, independent of the order the keys are visited in. */
module MapSums {

  import opened Catalog

  /** Sum of all values of `m`. */
  ghost function MapSum(m: map<ProductId, int>): int
    decreases |m|
  {
    if |m| == 0 then 0
    else
      var k :| k in m;
      assert (m - {k}).Keys == m.Keys - {k};
      m[k] + MapSum(m - {k})
  }

  /** The sum of `m` is `m[j]` plus the sum of the rest. */
  ghost predicate SplitsAt(m: map<ProductId, int>, j: ProductId)
  {
    j in m && MapSum(m) == m[j] + MapSum(m - {j})
  }

  /** A non-empty map's sum splits off some key. */
  lemma MapSumPick(m: map<ProductId, int>)
    requires |m| != 0
    ensures exists j :: SplitsAt(m, j)
  {
    var j :| j in m && MapSum(m) == m[j] + MapSum(m - {j});
    assert SplitsAt(m, j);
  }

  /** Removing a present key shrinks the map by one. */
  lemma RemoveShrinks(m: map<ProductId, int>, k: ProductId)
    requires k in m
    ensures |m - {k}| == |m| - 1
  {
  }

  /** Any key can be taken out first: the sum does not depend on which key the
      fold starts with (the JavaScript `for…in` visits keys in insertion order). */
  lemma {:induction false} MapSumRemove(m: map<ProductId, int>, k: ProductId)
    requires k in m
    ensures MapSum(m) == m[k] + MapSum(m - {k})
    decreases |m|
  {
    RemoveShrinks(m, k);
    MapSumPick(m);
    var j :| SplitsAt(m, j);
    if j != k {
      var mj, mk := m - {j}, m - {k};
      RemoveShrinks(m, j);
      assert k in mj && mj[k] == m[k];
      assert j in mk && mk[j] == m[j];
      MapSumRemove(mj, k);
      MapSumRemove(mk, j);
      assert mj - {k} == mk - {j};
    }
  }

  /** Overwriting one key changes the sum by exactly the change at that key. */
  lemma MapSumUpdate(m: map<ProductId, int>, k: ProductId, v: int)
    ensures MapSum(m[k := v]) == MapSum(m) - (if k in m then m[k] else 0) + v
  {
    MapSumRemove(m[k := v], k);
    assert m[k := v] - {k} == m - {k};
    if k in m {
      MapSumRemove(m, k);
    } else {
      assert m - {k} == m;
    }
  }

  /** Deleting a present key lowers the sum by that key's value. */
  lemma MapSumDelete(m: map<ProductId, int>, k: ProductId)
    ensures MapSum(m - {k}) == MapSum(m) - (if k in m then m[k] else 0)
  {
    if k in m {
      MapSumRemove(m, k);
    } else {
      assert m - {k} == m;
    }
  }
}
