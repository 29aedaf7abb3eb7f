/** Option and the outcome of a call that may raise a Python exception. */
module Outcomes {

  datatype Option<+T> = None | Some(value: T)

  /** The Python exception classes raised by the modelled code. */
  datatype PyError =
    | RuntimeError
    | DecodeError
    | KeyError
    | TypeError
    | ValueError
    | AttributeError
    | NotImplementedError
    | UnboundLocalError

  /** A call either returns normally or raises one of the exceptions above. */
  datatype Outcome = Completed | Raised(error: PyError)

  datatype Result<+T> = Ok(value: T) | Err(error: PyError)
}
