/** Optional values and results with an error, as the endpoints return them. */
module Wrappers {

  /** A value that may be missing: JavaScript's `undefined` / `null`, or an absent field. */
  datatype Option<+T> = None | Some(value: T)

  /** What a `queryFn` resolves to: `{ data }` on success, `{ error }` otherwise. */
  datatype Result<+T, +E> = Ok(value: T) | Err(error: E)
}
