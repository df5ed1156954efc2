/** Failure-compatible wrappers shared by the dashboard modules. */
module Wrappers {

  /** An optional value: a TypeScript field marked `?`, or the result of `Array.prototype.find`. */
  datatype Option<+T> = None | Some(value: T)

  /** Either an accepted value or the reason it was refused. */
  datatype Result<+T, +E> = Ok(value: T) | Err(error: E)
}
