/**
 * Option and a Python-flavoured Result: a computation either yields a value
 * or raises one of the built-in exception kinds the modelled code can hit.
 */
module Wrappers {

  datatype Option<+T> = None | Some(value: T)

  /** The built-in exception classes the modelled code raises or catches. */
  datatype PyError = KeyError | TypeError | AttributeError | ValueError

  datatype Result<+T> = Ok(value: T) | Raised(error: PyError) {

    predicate IsFailure() {
      Raised?
    }

    function PropagateFailure<U>(): Result<U>
      requires Raised?
    {
      Raised(error)
    }

    function Extract(): T
      requires Ok?
    {
      value
    }
  }
}
