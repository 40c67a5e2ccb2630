/**
 * Success/failure values for the cmdlets and the client. Every exception the
 * modelled code can raise becomes a `Failure` carrying the exception's kind,
 * so that error paths are results rather than preconditions.
 */
module Results {

  datatype Option<+T> = None | Some(value: T) {
    function GetOr(default: T): T {
      match this
      case Some(v) => v
      case None => default
    }
  }

  /** The .NET exception types the modelled code throws or lets escape. */
  datatype Exception =
    | ArgumentException
    | PSArgumentException
    | FormatException
    | InvalidOperationException
    | ArgumentNullException
    | NullReferenceException
    | ParameterValidationException
    | CloudException(code: string)

  datatype Result<+T> = Success(value: T) | Failure(error: Exception)
}
