/** Outcome types shared by every module: a value that may be absent, and
    the result of an operation that may raise. */
module Results {

  datatype Option<+T> = None | Some(value: T)

  /** `Err` carries the rendered message of the exception the source raises. */
  datatype Result<+T> = Ok(value: T) | Err(error: string)
}
