/** Option and Result values: the model's stand-ins for C# null and for exceptions. */
module Outcomes {

  datatype Option<+T> = None | Some(value: T)

  /** `Err` plays the role of a thrown exception; `:-` propagates it unchanged. */
  datatype Result<+T, +E> = Ok(value: T) | Err(error: E) {

    predicate IsFailure() {
      Err?
    }

    function PropagateFailure<U>(): Result<U, E>
      requires Err?
    {
      Err(error)
    }

    function Extract(): T
      requires Ok?
    {
      value
    }
  }
}
