/** Option and Result, used for Python's `None`-returning lookups and for
    steps that either produce a value or raise. */
module Wrappers {

  datatype Option<+T> = None | Some(value: T)

  datatype Result<+T, +E> = Ok(value: T) | Err(error: E)

  /** `dict.get(key)`: the value stored under `key`, or `None`. */
  function Get<K, V>(m: map<K, V>, k: K): Option<V>
  {
    if k in m then Some(m[k]) else None
  }
}
