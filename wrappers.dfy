/** Option and Result values standing for JavaScript's `undefined`, Rust's `Option`
    and thrown exceptions / `Result::Err`. */
module Wrappers {

  datatype Option<+T> = None | Some(value: T) {
    function GetOr(default: T): T {
      match this
      case Some(v) => v
      case None => default
    }
  }

  datatype Result<+R, +E> = Success(value: R) | Failure(error: E)
}
