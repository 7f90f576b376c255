/** Optional values and fallible outcomes shared by every module of the model. */
module Optional {

  /** A value that may be absent: the model of `T | null`, of `T | undefined`
      and of an optional (`?`) field. */
  datatype Option<+T> = None | Some(value: T) {

    /** The value, or `default` when absent (JavaScript `x ?? default`). */
    function GetOr(default: T): T {
      match this
      case Some(v) => v
      case None => default
    }
  }

  /** The outcome of an operation that can throw: the value, or what was thrown. */
  datatype Result<+T, +E> = Ok(value: T) | Err(error: E)
}
