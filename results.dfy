/** Option and Result, the failure-compatible wrappers used for the
    exceptions the client and the job record raise. */
module Results {

  datatype Option<+T> = None | Some(value: T)

  /** Ok carries a value; Err carries the exception the source raises. */
  datatype Result<+T, +E> = Ok(value: T) | Err(error: E) {

    predicate IsFailure() {
      Err?
    }

    function PropagateFailure<U>(): Result<U, E>
      requires Err?
    {
      Err(error)
    }

    function Extract(): T
      requires Ok?
    {
      value
    }
  }
}
