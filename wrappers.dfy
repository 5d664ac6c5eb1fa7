/** Optional values and error-carrying results shared by every module. */
module Wrappers {
  datatype Option<T> = None | Some(value: T)

  datatype Result<T, E> = Ok(value: T) | Err(error: E)

  /** JavaScript's `value || 0` for a numeric field that may be missing. */
  function OrZero(v: Option<real>): real
  {
    if v.Some? then v.value else 0.0
  }
}
