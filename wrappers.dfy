/** Small failure-carrying datatypes shared by the model. */
module Wrappers {

  /** An optional value; `:-` on it stops at the first `None`. */
  datatype Option<T> = None | Some(value: T) {
    predicate IsFailure() {
      None?
    }

    function PropagateFailure<U>(): Option<U>
      requires None?
    {
      None
    }

    function Extract(): T
      requires Some?
    {
      value
    }
  }

  /** The outcome of a Rust call that either returns a value or panics (unwinds the thread). */
  datatype Outcome<T> = Returned(value: T) | Panicked

  /** A Rust `Result<T, String>`. */
  datatype Result<T> = Ok(value: T) | Err(message: string)
}
