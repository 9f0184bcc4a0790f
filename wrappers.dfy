/** Failure-carrying values shared by the model's modules. */
module Wrappers {

  datatype Option<T> = None | Some(value: T) {
    /** The carried value, or `default` for None. */
    function GetOr(default: T): T {
      match this
      case Some(v) => v
      case None => default
    }
  }

  datatype Result<T, E> = Ok(value: T) | Err(error: E)
}
