/** Optional values and the outcome of a call to the server. */
module Outcomes {

  /** A value that may be absent: `null` or a missing key on the TypeScript side. */
  datatype Option<T> = None | Some(value: T)

  /** What an awaited server call produced: its value, or a thrown error. */
  datatype Outcome<T> = Ok(value: T) | Failed
}
