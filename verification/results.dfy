/** Failure-carrying wrappers shared by the other modules. */
module Results {

  /** A value that may be absent, as a `dict.get` without a default returns. */
  datatype Option<+T> = None | Some(value: T) {

    /** The carried value, or `default` when there is none. */
    function GetOr(default: T): T {
      match this
      case Some(v) => v
      case None => default
    }
  }

  /** Either a value or the error that an operation raised instead. */
  datatype Result<+T, +E> = Success(value: T) | Failure(error: E)
}
