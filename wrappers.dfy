/** Option and Result, the two Rust enums the chat client's core is written with. */
module Wrappers {

  datatype Option<+T> = None | Some(value: T) {

    /** `Option::unwrap_or`. */
    function UnwrapOr(default: T): T {
      match this
      case Some(v) => v
      case None => default
    }
  }

  /** `Result<T, E>`; the client always uses a `String` error. */
  datatype Result<+T, +E> = Ok(value: T) | Err(error: E)
}
