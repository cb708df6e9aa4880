/** Optional values and results with an error, shared by every module of the model. */
module Wrappers {

  /** `None` stands for JavaScript's `null`/`undefined` where a value may be absent. */
  datatype Option<+T> = None | Some(value: T)

  /** The outcome of an operation that can be rejected with an error value. */
  datatype Result<+T, +E> = Success(value: T) | Failure(error: E)
}
