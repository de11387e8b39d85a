/** The optional value used wherever the Java code uses `null`. */
module Wrappers {

  datatype Option<+T> = None | Some(value: T) {

    /** The wrapped value, or `default` when there is none. */
    function GetOr(default: T): T {
      match this
      case Some(v) => v
      case None => default
    }
  }

  /** The value stored under `k`, or None when `m` has no such key. */
  function Get<K, V>(m: map<K, V>, k: K): (r: Option<V>)
    ensures r.Some? <==> k in m
    ensures r.Some? ==> r.value == m[k]
  {
    if k in m then Some(m[k]) else None
  }

  /** Maps that answer every lookup alike are equal. */
  lemma GetExtensional<K, V>(m1: map<K, V>, m2: map<K, V>)
    requires forall k :: Get(m1, k) == Get(m2, k)
    ensures m1 == m2
  {
    assert m1.Keys == m2.Keys by {
      forall k ensures k in m1 <==> k in m2 {
        assert Get(m1, k).Some? <==> Get(m2, k).Some?;
      }
    }
    forall k | k in m1 ensures m1[k] == m2[k] {
      assert Get(m1, k) == Get(m2, k);
    }
  }
}
