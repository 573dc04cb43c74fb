/** Failure-compatible wrappers: Python's `Optional[...]` and a raised exception. */
module Wrappers {

  /** `Optional[T]` of the source: `None` or a value. */
  datatype Optional<+T> = None | Some(value: T)

  /** The outcome of a call that may raise: its value, or the exception's message. */
  datatype Result<+T> = Ok(value: T) | Err(error: string) {
    predicate IsFailure() {
      Err?
    }

    function PropagateFailure<U>(): Result<U>
      requires Err?
    {
      Err(error)
    }

    function Extract(): T
      requires Ok?
    {
      value
    }
  }
}
