/** Optional values and the outcome of an operation that can raise. */
module Results {

  datatype Option<T> = None | Some(value: T)

  function GetOr<T>(o: Option<T>, default: T): T
  {
    if o.Some? then o.value else default
  }

  /** A value, or the message of the exception that was raised instead. */
  datatype Result<T> = Ok(value: T) | Error(msg: string)
}
