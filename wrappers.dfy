/** Failure-compatible wrappers shared by every module of the model. */
module Wrappers {

  /** A value that may be missing: an absent key of a JSON object, or Python's `None`. */
  datatype Option<+T> = None | Some(value: T) {
    function GetOr(default: T): T {
      match this
      case Some(v) => v
      case None => default
    }
  }

  /** The Python exceptions that escape the estimators uncaught and abort the whole run. */
  datatype PyError =
    | KeyError(key: string)   // `d[key]` on a mapping that lacks `key`
    | TypeError               // arithmetic on `None` or on a non-numeric attribute

  /** The outcome of a computation that either returns a value or raises. */
  datatype Result<+T> = Ok(value: T) | Raised(error: PyError)
}
