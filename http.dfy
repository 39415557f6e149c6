/** Results of the route handlers: a value, or the HTTP error the handler raises. */
module Http {

  datatype Option<+T> = None | Some(value: T)

  /** An `HTTPException`: a status code and its `detail` text. */
  datatype HttpError = HttpError(status: int, detail: string)

  datatype Result<+T> = Ok(value: T) | Err(error: HttpError)

  const BadRequest: int := 400
  const Unauthorized: int := 401
  const Forbidden: int := 403
  const NotFound: int := 404
  const ServerError: int := 500

  /** What an exception the handler does not catch becomes. */
  const InternalError: HttpError := HttpError(ServerError, "Internal Server Error")
}
