/** Outcomes of the modelled operations: the Python exceptions they can raise, and the
    failure-compatible Result and Option wrappers used to return them. */
module Results {

  /** The exceptions the parsers and the tax arithmetic can raise. */
  datatype Error =
    | IndexError         // a token, line or list index past the end
    | ValueError         // a malformed number or date, or an unavailable rate
    | ZeroDivisionError  // a division by a zero exchange rate

  datatype Result<+T> = Ok(value: T) | Err(error: Error) {
    predicate IsFailure() { Err? }

    function PropagateFailure<U>(): Result<U>
      requires Err?
    {
      Err(error)
    }

    function Extract(): T
      requires Ok?
    {
      value
    }
  }

  /** The outcome of an operation that returns nothing or raises. */
  datatype Outcome = Pass | Fail(error: Error)

  datatype Option<+T> = None | Some(value: T)
}
