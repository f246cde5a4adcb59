/** Option and Result, the failure-compatible wrappers used by every decoder. */
module Wrappers {

  datatype Option<+T> = None | Some(value: T)

  /** `Ok` carries a decoded value, `Err` the reason a decoder gave up. */
  datatype Result<+T, +E> = Ok(value: T) | Err(error: E) {
    predicate IsFailure() {
      Err?
    }

    function PropagateFailure<U>(): Result<U, E>
      requires Err?
    {
      Err(error)
    }

    function Extract(): T
      requires Ok?
    {
      value
    }
  }
}
