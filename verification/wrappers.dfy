/** Failure-carrying values used in place of Python's exceptions. */
module Wrappers {

  /** A value that may be absent (a missing environment variable, an unparsable number). */
  datatype Option<T> = None | Some(value: T)

  /** A computed value or the error that was raised instead. */
  datatype Result<T, E> = Ok(value: T) | Err(error: E)

  /** A check that either passes or raises an error. */
  datatype Outcome<E> = Pass | Fail(error: E)

  /** The Python exceptions the modelled code raises, with the key or message they carry. */
  datatype PyError =
    | ValueError(message: string)
    | KeyError(key: string)
    | IndexError(message: string)
    | UnboundLocalError(name: string)
}
