/**
 * Surrogate-key allocation for the tables keyed by a single integer
 * (users, jobs, appointments): ask the store for the largest key in use
 * (NULL when the table is empty), treat NULL as 0 and add one.
 */
module Keys {
  import opened Wrappers

  /** `m` is the largest element of `keys`. */
  predicate IsMax(keys: set<int>, m: int) {
    m in keys && forall k :: k in keys ==> k <= m
  }

  /** Adding one element to a set with a known maximum. */
  lemma MaxOfInsert(rest: set<int>, x: int, m: int)
    requires IsMax(rest, m)
    ensures IsMax(rest + {x}, if x > m then x else m)
  {
  }

  /** Every non-empty finite set of integers has a largest element. */
  lemma {:induction false} MaxExists(keys: set<int>)
    requires keys != {}
    ensures exists m :: IsMax(keys, m)
    decreases |keys|
  {
    if forall y: int :: y !in keys {
      assert false;
    }
    var x: int :| x in keys;
    if keys == {x} {
      assert IsMax(keys, x);
    } else {
      var rest := keys - {x};
      assert keys == rest + {x};
      MaxExists(rest);
      var m :| IsMax(rest, m);
      MaxOfInsert(rest, x, m);
    }
  }

  /** The SQL aggregate `max` over a key column: NULL on an empty table. */
  function MaxKey(keys: set<int>): (r: Option<int>)
    ensures r.None? <==> keys == {}
    ensures r.Some? ==> IsMax(keys, r.value)
  {
    if keys == {} then None
    else
      MaxExists(keys);
      var m :| IsMax(keys, m);
      Some(m)
  }

  /** The key a create handler assigns: 1 on an empty table, else the largest key plus one. */
  function NextKey(keys: set<int>): (k: int)
    ensures k !in keys
    ensures forall x :: x in keys ==> x < k
    ensures keys == {} ==> k == 1
    ensures keys != {} ==> k - 1 in keys
  {
    var maxId := match MaxKey(keys) case None => 0 case Some(m) => m;
    maxId + 1
  }

  /** Creating rows one after another hands out consecutive keys. */
  lemma NextKeyAfterInsert(keys: set<int>)
    ensures NextKey(keys + {NextKey(keys)}) == NextKey(keys) + 1
  {
  }

  /** Deleting any row except the one holding the largest key does not change the next key. */
  lemma NextKeyAfterDelete(keys: set<int>, gone: int)
    requires gone != NextKey(keys) - 1
    ensures NextKey(keys - {gone}) == NextKey(keys)
  {
    if keys != {} {
      assert NextKey(keys) - 1 in keys - {gone};
    }
  }

  /**
   * Deleting the row with the largest key lets the next create reuse that key
   * (or a smaller one): the policy is not a monotonic counter.
   */
  lemma NextKeyReusesDeletedMax(keys: set<int>)
    requires keys != {}
    requires forall k :: k in keys ==> k >= 1
    ensures NextKey(keys - {NextKey(keys) - 1}) <= NextKey(keys) - 1
  {
  }
}
