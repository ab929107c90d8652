/** Failure-compatible wrappers used for the error paths of the model. */
module Wrappers {

  datatype Option<+T> = None | Some(value: T)

  /** Why an operation of the source raises instead of returning. */
  datatype Error =
    | IndexError        // indexing an empty string (`data[-1]`)
    | TypeError         // a call with the wrong number of arguments
    | KeyError(key: string)  // a lookup of a missing key
    | AttributeError    // a call of a method the object does not define

  datatype Result<+R> = Ok(value: R) | Err(error: Error) {
    predicate IsFailure() { Err? }

    function PropagateFailure<U>(): Result<U>
      requires Err?
    {
      Err(error)
    }

    function Extract(): R
      requires Ok?
    {
      value
    }
  }
}
