/** Failure-carrying results used by every module of the model. */
module Wrappers {
  datatype Option<+T> = None | Some(value: T)

  /** A Python exception or JavaScript error becomes `Err`, with the text it carries. */
  datatype Result<+T, +E> = Ok(value: T) | Err(error: E) {
    predicate IsFailure() { Err? }

    function PropagateFailure<U>(): Result<U, E>
      requires Err?
    {
      Err(error)
    }

    function Extract(): T
      requires Ok?
    {
      value
    }
  }
}
