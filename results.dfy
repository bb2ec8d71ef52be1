/** Success/failure wrappers shared by the modules of the transcoder model. */
module Results {

  /** A value that may be missing (Python's `None`). */
  datatype Option<+T> = None | Some(value: T) {
    function GetOr(default: T): T {
      match this
      case Some(v) => v
      case None => default
    }
  }

  /** The result of an operation that either produces a value or fails with an error. */
  datatype Result<+R, +E> = Success(value: R) | Failure(error: E)

  /** The result of an operation that produces nothing but may fail. */
  datatype Outcome<+E> = Pass | Fail(error: E)
}
