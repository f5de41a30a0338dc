/** Optional values and results with an error message, used for the source's
    `None` fields and for the outcomes of external collaborators. */
module Wrappers {

  datatype Option<+T> = None | Some(value: T)

  /** The outcome of an external call: a value, or the text of the exception it raised. */
  datatype Result<+T> = Ok(value: T) | Err(message: string)
}
