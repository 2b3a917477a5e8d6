/** Option and Result: Java's nullable references and thrown exceptions, as values. */
module Wrappers {

  /** A Java reference that may be `null` (None). */
  datatype Option<+T> = None | Some(value: T)

  /** A call that returns a value (Ok) or throws (Err). */
  datatype Result<+T, +E> = Ok(value: T) | Err(error: E)
}
