/** Optional values and the Python exceptions the modelled code can raise. */
module Wrappers {
  datatype Option<T> = None | Some(value: T)

  /** The built-in Python exception an operation ends with. */
  datatype PyError =
    | RuntimeError
    | KeyError
    | IndexError
    | ValueError
    | TypeError
    | AttributeError
    | ZeroDivisionError

  /** The value an operation returns, or the exception it raises. */
  datatype Result<T> = Ok(value: T) | Err(error: PyError)
}
