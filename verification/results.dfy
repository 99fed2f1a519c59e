/**
 Failure-aware return types shared by every module of the model.

 The C# code signals failure in three ways: by returning `null`, by throwing
 one of the runtime's exceptions (an array index out of range, a missing
 file, a null dereference), or by logging and carrying on. `Option` models
 the first, `Result` with a `Fault` the second; the third leaves no trace in
 the model.
 */
module Results {

  /** `None` stands for the C# `null` reference. */
  datatype Option<+T> = None | Some(value: T)

  /** The run-time exceptions the modelled code can raise. */
  datatype Fault =
    | IndexOutOfRange      // IndexOutOfRangeException on an array or list index
    | NullReference        // NullReferenceException on a member access through null
    | FileNotFound(path: string)  // File.ReadAllBytes on a path that does not exist

  /** Either the value the C# code returns or the exception it throws. */
  datatype Result<+T> = Ok(value: T) | Err(fault: Fault) {

    predicate IsFailure() {
      Err?
    }

    function PropagateFailure<U>(): Result<U>
      requires Err?
    {
      Err(fault)
    }

    function Extract(): T
      requires Ok?
    {
      value
    }
  }
}
