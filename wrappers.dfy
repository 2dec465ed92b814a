/** Nullable values and the outcome of a lookup that may fail with "not found". */
module Wrappers {

  /** A Java reference or boxed value that may be null. */
  datatype Option<+T> = None | Some(value: T)

  /** The result of a service call: the entity, or the not-found error with its message. */
  datatype Outcome<+T> = Ok(value: T) | NotFound(message: string)
}
