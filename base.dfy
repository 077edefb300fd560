/** Optional values and success/failure results, the shapes Swift's `T?` and `Swift.Result` take in this model. */
module Base {

  /** Swift's `Optional`: `nil` is None. */
  datatype Option<+T> = None | Some(value: T) {

    /** `self ?? default` */
    function GetOr(default: T): T {
      match this
      case Some(v) => v
      case None => default
    }
  }

  /** Swift's `Result<Success, Failure>`. */
  datatype Result<+T, +E> = Success(value: T) | Failure(error: E)
}
