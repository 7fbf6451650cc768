/** Optional values and outcomes that may end in a run-time panic. */
module Wrappers {

  datatype Option<+T> = None | Some(value: T)

  /** A Go computation either returns a value or panics (nil dereference, index out of range). */
  datatype Panic = NilDereference | IndexOutOfRange

  datatype Result<+T> = Ok(value: T) | Failed(panic: Panic) {
    predicate IsFailure() { Failed? }

    function PropagateFailure<U>(): Result<U>
      requires Failed?
    {
      Failed(panic)
    }

    function Extract(): T
      requires Ok?
    {
      value
    }
  }
}
