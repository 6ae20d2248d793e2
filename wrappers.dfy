/** Optional values, results and pass/fail outcomes shared by every module of the model. */
module Wrappers {

  /** A value that may be missing: JavaScript's `undefined`/`null` is `None`. */
  datatype Option<+T> = None | Some(value: T) {

    /** The value, or `default` when it is missing (`x ?? default`). */
    function GetOr(default: T): T {
      match this
      case Some(v) => v
      case None => default
    }
  }

  /** The outcome of an awaited call that returns a value or throws. */
  datatype Result<+T, +E> = Ok(value: T) | Err(error: E)

  /** The outcome of an awaited call whose value is not used. */
  datatype Outcome<+E> = Pass | Fail(error: E)
}
