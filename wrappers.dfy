/** Optional values and fallible results, used where the source returns `None`
    or raises on malformed input. */
module Wrappers {

  datatype Option<+T> = None | Some(value: T)

  datatype Result<+T, +E> = Ok(value: T) | Err(error: E)

  /** Dictionary `get`: the value stored under `k`, or None. */
  function MapGet<K, V>(m: map<K, V>, k: K): (r: Option<V>)
    ensures r.Some? <==> k in m
    ensures r.Some? ==> r.value == m[k]
  {
    if k in m then Some(m[k]) else None
  }
}
