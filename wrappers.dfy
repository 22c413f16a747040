/** Optional values and results with an error, as the managers return them
    (`null`/`undefined` for a missing record, a thrown Error for a refused request). */
module Wrappers {

  /** A value that may be absent: a missing key of a JavaScript object,
      or the `null`/`undefined` a lookup returns. */
  datatype Option<+T> = None | Some(value: T) {

    /** The value, or `default` when absent. */
    function GetOr(default: T): T {
      match this
      case Some(v) => v
      case None => default
    }
  }

  /** Either the value an operation returns or the error it throws. */
  datatype Result<+T, +E> = Ok(value: T) | Err(error: E)
}
