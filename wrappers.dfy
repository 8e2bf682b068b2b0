/** Optional values and either-or results, as the rest of the model uses them. */
module Wrappers {

  /** A value that may be absent (`undefined` / `null` on the JavaScript side). */
  datatype Option<+T> = None | Some(value: T)

  /** A parse outcome: the accepted value, or what was wrong with it. */
  datatype Result<+R, +E> = Success(value: R) | Failure(error: E)
}
