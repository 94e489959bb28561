/** Option, Result and Outcome values, and map lookup that yields an Option
    (a Ruby Hash answers nil for a missing key). */
module Wrappers {

  datatype Option<+T> = None | Some(value: T)

  datatype Result<+R, +E> = Ok(value: R) | Err(error: E)

  /** The outcome of a step that raises or completes without a value. */
  datatype Outcome<+E> = Pass | Fail(error: E)

  /** `m[k]` on a Ruby Hash: the value, or nil when the key is absent. */
  function Lookup<K, V>(m: map<K, V>, k: K): Option<V>
  {
    if k in m then Some(m[k]) else None
  }
}
