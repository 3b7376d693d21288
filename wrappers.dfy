/** Option and Result, the shapes the storefront uses for "maybe absent" and "ok or failed". */
module Wrappers {

  /** A value that may be absent: a JavaScript `null`/`undefined` or a missing key. */
  datatype Option<+T> = None | Some(value: T) {
    /** The contained value, or `default` when absent. */
    function GetOr(default: T): T {
      match this
      case Some(v) => v
      case None => default
    }
  }

  /** The outcome of an operation that can reject (a failed `fetch`, a JSON error). */
  datatype Result<+R, +E> = Success(value: R) | Failure(error: E) {
    /** Forgets the error value. */
    function ToOption(): Option<R> {
      match this
      case Success(v) => Some(v)
      case Failure(_) => None
    }
  }
}
