/** Optional values: a JavaScript lookup that may yield `undefined`. */
module Options {

  datatype Option<+T> = None | Some(value: T)

  /** Looks `key` up in `m`; a missing key gives None, as indexing a JavaScript object does. */
  function Lookup<K, V>(m: map<K, V>, key: K): (r: Option<V>)
    ensures r.Some? <==> key in m
    ensures r.Some? ==> r.value == m[key]
  {
    if key in m then Some(m[key]) else None
  }
}
