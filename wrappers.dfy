/** Option and Result types, and the exception kinds the modelled code raises. */
module Wrappers {

  /** A Java reference that may be null. */
  datatype Option<+T> = None | Some(value: T) {
    predicate IsFailure() { None? }

    function PropagateFailure<U>(): Option<U>
      requires None?
    {
      None
    }

    function Extract(): T
      requires Some?
    {
      value
    }

    function GetOr(default: T): T {
      if Some? then value else default
    }
  }

  /** The exceptions thrown by the modelled code, by kind. */
  datatype Error =
    | InvalidTemplate        // InvalidTemplateException
    | InvalidServer          // InvalidServerException
    | NoSuchServer           // NoSuchServerException
    | NoSuchTemplate         // NoSuchTemplateException
    | PortNotFound           // PortNotFoundException
    | IOFailure              // IOException
    | NullDereference        // NullPointerException
    | IllegalArgument        // IllegalArgumentException (Enum.valueOf)
    | IndexOutOfBounds       // IndexOutOfBoundsException (List.remove(int))
    | TooManyRecursions      // RuntimeException("Too many recursions in Placeholder")
    | Wrapped(cause: Error)  // a RuntimeException whose cause is another exception

  /** The outcome of a call that returns a value or throws. */
  datatype Result<+T> = Ok(value: T) | Err(error: Error) {
    predicate IsFailure() { Err? }

    function PropagateFailure<U>(): Result<U>
      requires Err?
    {
      Err(error)
    }

    function Extract(): T
      requires Ok?
    {
      value
    }
  }

  /** The outcome of a call that returns nothing or throws. */
  datatype Outcome = Pass | Fail(error: Error) {
    predicate IsFailure() { Fail? }

    function PropagateFailure(): Outcome
      requires Fail?
    {
      this
    }
  }
}
