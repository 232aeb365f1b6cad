// Failure-compatible results shared by every module.

module Wrappers {

  datatype Option<+T> = None | Some(value: T)

  datatype Result<+T, +E> = Ok(value: T) | Err(error: E) {
    predicate IsFailure() { Err? }

    function PropagateFailure<U>(): Result<U, E>
      requires Err?
    {
      Err(error)
    }

    function Extract(): T
      requires Ok?
    {
      value
    }
  }

  // How a domain object refuses: bad field values, or a transition from the wrong status.
  datatype DomainError = InvalidData | InvalidTransition
}
