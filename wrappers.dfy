/** Optional values, used for JavaScript's `undefined` and for failed requests. */
module Wrappers {

  datatype Option<+T> = None | Some(value: T)

  /** Reading a key of a plain JavaScript object used as a dictionary:
      the stored value, or `undefined` (None) when the key was never set. */
  function Get<K, V>(m: map<K, V>, k: K): (r: Option<V>)
    ensures r.Some? <==> k in m
    ensures r.Some? ==> r.value == m[k]
  {
    if k in m then Some(m[k]) else None
  }
}
