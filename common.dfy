/** Optional values and outcomes with an error, used by every component model. */
module Common {

  datatype Option<+T> = None | Some(value: T)

  /** An operation that either produces a value or is refused with a reason (the components
      report the reason with an alert and emit nothing). */
  datatype Result<+T, +E> = Ok(value: T) | Err(error: E)
}
