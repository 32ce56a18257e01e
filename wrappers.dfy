/** Optional values and results with an error channel. */
module Wrappers {

  /** A value that may be absent; in the services it stands for a
      parameter the caller left `undefined`. */
  datatype Option<+T> = None | Some(value: T) {

    /** The value when present, otherwise `default`. */
    function GetOr(default: T): T {
      match this
      case Some(v) => v
      case None => default
    }
  }

  /** The value of a promise that either resolves or rejects. */
  datatype Result<+T, +E> = Ok(value: T) | Err(error: E)
}
