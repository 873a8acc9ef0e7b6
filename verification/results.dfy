/** Failure-carrying wrappers shared by the whole model. */
module Results {

  /** A value that may be missing (`undefined` in the JavaScript being modelled). */
  datatype Option<+T> = None | Some(value: T)

  /** The outcome of a step that may throw: either its value or the thrown error's message. */
  datatype Result<+T> = Ok(value: T) | Err(message: string)
}
