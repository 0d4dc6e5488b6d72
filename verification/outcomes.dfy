/** Errors, results and the outcome of running a visitor, shared by every other module. */
module Outcomes {

  datatype Option<+T> = None | Some(value: T)

  /** The exceptions the library raises, by kind. */
  datatype Error =
    | NotRegistered(typeName: string)          // KeyNotFoundException from BuildType
    | DuplicateKey(key: string)                // ArgumentException from Dictionary.Add
    | InvalidOperation(message: string)        // a rejected property path
    | ArgumentOutOfRange(parameter: string)    // string slicing and padding arguments
    | Overflow                                 // Math.Abs and TimeSpan arithmetic
    | NullReference                            // invoking a delegate that is null
    | TargetInvocation(inner: Error)           // an exception rethrown by reflection
    | Raised(message: string)                  // whatever a caller's own visitor throws

  /** A value or the exception that prevented it; usable with `:-`. */
  datatype Result<+T> = Ok(value: T) | Err(error: Error) {

    predicate IsFailure() {
      Err?
    }

    function PropagateFailure<U>(): Result<U>
      requires Err?
    {
      Err(error)
    }

    function Extract(): T
      requires Ok?
    {
      value
    }
  }

  /**
   * What a visitor leaves behind: the value now held by the variable passed
   * by reference, and the exception that escaped, if any. On an exception the
   * value is whatever the steps that had already run left there.
   */
  datatype Outcome<+V> = Outcome(value: V, error: Option<Error>) {

    predicate Completed() {
      error.None?
    }
  }
}
