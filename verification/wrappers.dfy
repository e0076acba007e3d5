/** The optional and either-or values used throughout the model. */
module Wrappers {

  /** A nullable value: `None` stands for Python's `None`, SQL `NULL` and
      JavaScript's `undefined`/`null`. */
  datatype Option<+T> = None | Some(value: T) {

    /** Returns the value held in `Some`, or `default` when `None`
        (the `x ?? default` of JavaScript). */
    function GetOr(default: T): T {
      match this
      case Some(v) => v
      case None => default
    }
  }

  /** Either a successful value or an error value. */
  datatype Result<+R, +E> = Success(value: R) | Failure(error: E)
}
