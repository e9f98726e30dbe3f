/** Optional values and failure-carrying results shared by the whole model. */
module Wrappers {

  datatype Option<+T> = None | Some(value: T) {
    function GetOr(default: T): T
    {
      if Some? then value else default
    }
  }

  /** The Python exceptions the wrapper raises, or lets escape from numpy and the engine. */
  datatype PyError =
    | KeyError           // a dictionary lookup that misses
    | ValueError         // a rejected argument, or numpy refusing to stack arrays
    | IndexError         // a subscript out of range, or not an integer
    | AssertionError     // a failed `assert`
    | TypeError          // `int()` applied to a list
    | ZeroDivisionError  // Python division of an int by zero
    | PathUndefined      // neither an argument nor the index itself names a file
    | EngineFailure      // an error reported by the native engine

  /** Either the value a call returns or the exception it raises. */
  datatype Result<+T> = Ok(value: T) | Err(error: PyError) {
    predicate IsFailure()
    {
      Err?
    }

    function PropagateFailure<U>(): Result<U>
      requires Err?
    {
      Err(error)
    }

    function Extract(): T
      requires Ok?
    {
      value
    }
  }
}
