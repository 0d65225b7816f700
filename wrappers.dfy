/** Optional values and results with an error, shared by the schema and the webhook handler. */
module Wrappers {

  /** A value that may be absent: a nullable column, an optional payload field. */
  datatype Option<+T> = None | Some(value: T) {

    /** The value, or `default` when absent. */
    function GetOr(default: T): T {
      match this
      case Some(v) => v
      case None => default
    }
  }

  /** The outcome of a statement against the store: the new value or the error the database raises. */
  datatype Result<+T, +E> = Ok(value: T) | Err(error: E)
}
