/** Option and Result values standing for Go's "value, ok" and "value, err" pairs. */
module Results {

  /** A value that may be absent (Go's `v, ok := ...` with `ok == false`). */
  datatype Option<+T> = None | Some(value: T) {
    /** The carried value, or `default` when absent. */
    function GetOr(default: T): T {
      match this
      case Some(v) => v
      case None => default
    }
  }

  /** Either a value or the error an upstream call returned. */
  datatype Result<+T> = Ok(value: T) | Err(error: string)
}
