/** Option and Result, the latter carrying the Python exception that aborts a run. */
module Wrappers {

  datatype Option<+T> = None | Some(value: T)

  /** The exception classes the reconciliation code can raise on malformed payloads. */
  datatype Fault = KeyError | TypeError | AttributeError | UnboundLocalError

  /** A computation that either yields a value or raises; failure-compatible, so `:-` works. */
  datatype Result<+T> = Ok(value: T) | Err(fault: Fault) {

    predicate IsFailure() {
      Err?
    }

    function PropagateFailure<U>(): Result<U>
      requires Err?
    {
      Err(fault)
    }

    function Extract(): T
      requires Ok?
    {
      value
    }
  }
}
