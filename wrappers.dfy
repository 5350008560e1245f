/** Optional values, results and the exceptions the modelled Python code can raise. */
module Wrappers {

  /** Python's `None` or a present value. */
  datatype Option<+T> = None | Some(value: T)

  /** The Python exceptions that reach callers of the modelled code. */
  datatype Error =
    | ValueError
    | TypeError
    | KeyError
    | IndexError
    | RuntimeError
    | AttributeError
      /** End of input at an interactive prompt. */
    | EOFError
      /** A JSON credential field holding a number, boolean, list or object (see README). */
    | NonTextKey
      /** An exception raised by the remote service, propagated unchanged. */
    | RemoteError(reason: string)

  /** A value returned normally, or an exception raised. */
  datatype Result<+T> = Ok(value: T) | Err(error: Error)
}
