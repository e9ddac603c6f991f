/** Failure-compatible wrappers shared by the call-graph model. */
module Common {

  datatype Option<+T> = None | Some(value: T)

  /** The unchecked exceptions the modelled operations can raise. */
  datatype Error =
    | JsonException(detail: string)    // a key or index is missing, or a value has the wrong kind
    | NumberFormat(input: string)      // a string is not a decimal integer in range
    | IndexOutOfBounds(index: int)     // String.substring was given a negative end index
    | NullPointer                      // a scope missing from a class hierarchy was dereferenced

  datatype Result<+T> = Ok(value: T) | Err(error: Error) {
    predicate IsFailure() { Err? }

    function PropagateFailure<U>(): Result<U>
      requires Err?
    {
      Err(error)
    }

    function Extract(): T
      requires Ok?
    {
      value
    }
  }
}
