/** Optional values and results shared by every module of the model. */
module Wrappers {

  /** A value that may be absent: Python's `None` or a present value. */
  datatype Option<T> = None | Some(value: T)

  /** The outcome of an operation that may raise instead of returning. */
  datatype Result<T, E> = Ok(value: T) | Err(error: E)

  /** The Python exception classes that the modelled code can raise. */
  datatype Exception =
    | AttributeError      // an attribute looked up on None (`None.split`)
    | IndexError          // a tuple subscript past its end
    | KeyError            // a dictionary subscript with a missing key
    | TypeError           // e.g. too few arguments for a `%` format
    | ValueError          // a failed int()/float() conversion or tuple unpacking
    | ZeroDivisionError   // `/` or `%` with a zero right operand
}
