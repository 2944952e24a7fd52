/** Option, Result and the error kinds that the client either raises locally or
    surfaces from the remote ledger authority. */
module Results {

  datatype Option<+T> = None | Some(value: T)

  /** The exceptions the interface code raises (named after the Python ones),
      plus the authority's rejections that reach the caller as HTTP errors. */
  datatype Error =
    | ValueError            // wrong argument shape, or a response of the wrong length
    | AttributeError        // owner mismatch in a batch, or a method missing on a response body
    | IndexError            // first element of an empty list
    | TypeError             // iterating a response body that is not iterable
    | StopIteration         // first entry of an empty mapping
    | NotImplementedError   // an operation the client does not support
    | InvalidOperation      // a string that is not a decimal number
    | HttpError(status: int)
    | NotFound              // the authority holds no such record or version
    | Duplicate             // the authority already holds a record with this key

  datatype Result<+T> = Ok(value: T) | Err(error: Error)

  /** The result of a call that returns nothing on success. */
  datatype Outcome = Pass | Fail(error: Error)
}
