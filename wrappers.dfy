/** Optional values: a JavaScript `undefined`/`null` where the server reads one. */
module Wrappers {

  datatype Option<+T> = None | Some(value: T)

  /** The value kept under `k`, or `default` when there is none (the source's `m[k] || default`). */
  function Get<K, V>(m: map<K, V>, k: K, default: V): (v: V)
    ensures k in m ==> v == m[k]
    ensures k !in m ==> v == default
  {
    if k in m then m[k] else default
  }
}
