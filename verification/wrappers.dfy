/** Rust's `Option` and `Result`; `Option` has the members Dafny needs so that `:-` plays the role of `?`. */
module Wrappers {

  datatype Option<+T> = None | Some(value: T) {

    predicate IsFailure() {
      None?
    }

    function PropagateFailure<U>(): Option<U>
      requires None?
    {
      None
    }

    function Extract(): T
      requires Some?
    {
      value
    }
  }

  /** Rust's `Result`: a value, or the error that ends the computation. */
  datatype Result<+T, +E> = Ok(value: T) | Err(error: E)
}
