/** Failure-carrying datatypes shared by every module of the model. */
module Wrappers {

  datatype Option<+T> = None | Some(value: T) {
    function GetOr(default: T): T {
      match this
      case Some(v) => v
      case None => default
    }
  }

  datatype Result<+T, +E> = Ok(value: T) | Err(error: E)

  /** What a Rust call does besides returning: it may panic (an `unwrap` on
      `None`, an `expect` on `Err`).  A panic inside a spawned task ends that
      task; nothing is returned to whoever awaited it. */
  datatype Outcome<+T> = Returned(value: T) | Panicked(reason: string)

  const UnwrapNone := "called `Option::unwrap()` on a `None` value"
  const UnwrapErr := "called `Result::unwrap()` on an `Err` value"
}
