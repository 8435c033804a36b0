/**
 * Values shared by every part of the model: optional values (Kotlin's and C#'s
 * nullable references), results, and the exceptions the weather client passes around.
 */
module Common {

  /** A nullable value: None stands for `null`. */
  datatype Option<+T> = None | Some(value: T) {
    function GetOr(default: T): T {
      match this
      case Some(v) => v
      case None => default
    }
  }

  /** Either a value or the failure that was raised instead of it. */
  datatype Result<+T, +E> = Success(value: T) | Failure(error: E)

  /**
   * An exception as far as the model cares about it: which family it belongs to
   * and its message.  The weather client distinguishes transport failures
   * (IOException), its own "not available" errors (RuntimeException) and
   * failures of the JSON mapper.
   */
  datatype Exception =
    | IOException(message: string)
    | RuntimeException(message: string)
    | JsonException(message: string)
}
