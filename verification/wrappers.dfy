/** Optional values and results of routines that may throw, shared by the other modules. */
module Wrappers {

  /** A value that may be absent: JavaScript's `null`/`undefined` on an
      optional field, or "no action"/"no frame" from a routine. */
  datatype Option<+T> = None | Some(value: T)

  /** The outcome of a routine that may throw: `Err` carries what was thrown. */
  datatype Result<+T, +E> = Ok(value: T) | Err(error: E)
}
