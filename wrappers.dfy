/** Option and Result, used where the gateway returns `None` or raises a conversion error. */
module Wrappers {

  datatype Option<+T> = None | Some(value: T)

  /** The gateway's `MessageConversionError` and the index/struct errors a malformed buffer raises. */
  datatype Error = ConversionError | MalformedBuffer

  datatype Result<+T> = Success(value: T) | Failure(error: Error)
}
