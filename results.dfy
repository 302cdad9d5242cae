/** Failure-compatible wrappers shared by the model: `Option` stands for a
    JavaScript value that may be `null`/`undefined` (or `NaN` for a number),
    `Result` for a call that returns normally or throws an `Error`. */
module Results {

  datatype Option<+T> = None | Some(value: T) {
    function GetOr(default: T): T {
      match this
      case Some(v) => v
      case None => default
    }
  }

  datatype Result<+T, +E> = Success(value: T) | Failure(error: E)
}
