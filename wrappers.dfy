/** Kotlin's nullable values and thrown exceptions, as data. */
module Wrappers {

  /** A Kotlin `T?`: `None` stands for `null`. */
  datatype Option<+T> = None | Some(value: T)

  /** The outcome of a call that may throw: `Err` carries what it throws. */
  datatype Result<+T, +E> = Ok(value: T) | Err(error: E)
}
