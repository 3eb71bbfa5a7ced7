/** Values shared by both stores: optional values, results with an error
    side, and the HTTP errors the service raises. */
module Base {

  /** Python's `None` or a present value. */
  datatype Option<T> = None | Some(value: T)

  /** A value, or the exception raised instead of producing it. */
  datatype Result<T, E> = Ok(value: T) | Err(error: E)

  /** An `HTTPException`: status code and detail text. */
  datatype HttpError = HttpError(status: int, detail: string)
}
