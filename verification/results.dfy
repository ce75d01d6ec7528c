/** Failure-carrying results: the model's stand-in for a JavaScript `throw`. */
module Results {

  /** Either the value an operation returns, or the message of the Error it throws. */
  datatype Result<+T> = Ok(value: T) | Err(message: string)

  /** The conventional Some/None datatype, used for JavaScript `undefined`. */
  datatype Option<+T> = None | Some(value: T)
}
