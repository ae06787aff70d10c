/**
 * The Java code signals failure in two ways: by throwing an exception and by
 * returning null. Both are modelled as values: a failing computation yields
 * Fail(error), a null reference is None.
 */
module Wrappers {

  /** The exceptions the modelled code raises. */
  datatype Error =
    | IllegalArgument(message: string)
    | NullPointer
    | UnsupportedOperation(message: string)
    | Arithmetic

  datatype Option<+T> = None | Some(value: T)

  datatype Result<+T> = Ok(value: T) | Fail(error: Error)
  {
    predicate IsFailure() {
      Fail?
    }

    /** The failure carried on; `:-` only calls it on a failure. */
    function PropagateFailure<U>(): Result<U>
    {
      match this
      case Fail(e) => Fail(e)
      case Ok(_) => Fail(Arithmetic)
    }

    function Extract(): T
      requires Ok?
    {
      value
    }
  }
}
