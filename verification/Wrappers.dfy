/** Result and option types standing for the program's exceptions and `None`. */
module Wrappers {

  datatype Option<+T> = None | Some(value: T)

  /** The exceptions the modelled code raises. */
  datatype Error =
    | ValueError
    | KeyError
    | IndexError
    | RuntimeError
    | TimeoutError
    | ZeroDivisionError
    | ShapeError  // torch refuses to combine the tensors

  datatype Result<+T> = Ok(value: T) | Err(error: Error) {
    predicate IsFailure() {
      Err?
    }

    function PropagateFailure<U>(): Result<U>
      requires Err?
    {
      Err(error)
    }

    function Extract(): T
      requires Ok?
    {
      value
    }
  }
}
