/** Result shapes shared by every module: Rust's `Option`, `Result`, and the
    two ways a Rust call that may panic can end. */
module Wrappers {

  datatype Option<+T> = None | Some(value: T)

  datatype Result<+T, +E> = Ok(value: T) | Err(error: E)

  /** A call that either returned normally or panicked with a message.
      State changes made before the panic point are kept, as in the source. */
  datatype Outcome = Pass | Panic(message: string)
}
