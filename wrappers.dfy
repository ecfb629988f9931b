/** Option and Result, and the Python exceptions the modelled code can raise. */
module Wrappers {

  datatype Option<+T> = None | Some(value: T)

  /** The exceptions of the modelled code, by the Python class that is raised. */
  datatype Error =
    | ZeroDivisionError   // `//` by zero, or `0 ** -0.5`
    | ValueError          // heads not divisible by the number of shards
    | AssertionError      // an `assert` in the attention loader
    | ShapeError          // torch's RuntimeError for mismatched sizes in `cat` or `split`
    | KeyError            // an activation name missing from the activation table
    | IndexError          // an index past the end of a tensor
    | TypeError           // calling a projection that was never loaded (`None`)

  datatype Result<+T> = Ok(value: T) | Err(error: Error) {

    predicate IsFailure() {
      Err?
    }

    function PropagateFailure<U>(): Result<U>
      requires Err?
    {
      Err(error)
    }

    function Extract(): T
      requires Ok?
    {
      value
    }
  }
}
