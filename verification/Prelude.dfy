/** Small datatypes shared by every module. */
module Prelude {

  datatype Option<+T> = None | Some(value: T)

  function Lookup<K, V>(m: map<K, V>, key: K): Option<V> {
    if key in m then Some(m[key]) else None
  }

  /** What an operation of the daemon answers: a value, a refusal that names its
      reason, or a store error (Rust's `?` on a failed statement). */
  datatype Reply<+T> = Done(value: T) | Refused(reason: string) | StoreFailed {

    predicate IsFailure() {
      !Done?
    }

    function PropagateFailure<U>(): Reply<U>
      requires IsFailure()
    {
      if StoreFailed? then StoreFailed else Refused(reason)
    }

    function Extract(): T
      requires Done?
    {
      value
    }
  }
}
