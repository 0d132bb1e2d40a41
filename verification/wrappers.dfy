/** Optional values and results with an error, shared by the analyzers. */
module Wrappers {

  /** A value that may be absent: a JavaScript `undefined`/`null` or a missed lookup. */
  datatype Option<+T> = None | Some(value: T)

  /** Either a value or the error that prevented computing it (a thrown exception). */
  datatype Result<+T, +E> = Ok(value: T) | Err(error: E)
}
