/** Optional values and results shared by every module of the model. */
module Wrappers {
  /** A value that may be absent: JavaScript's `null`/`undefined` or Python's `None`. */
  datatype Option<T> = None | Some(value: T) {
    /** The value, or `fallback` when absent (the `??` idiom). */
    function GetOr(fallback: T): T {
      match this
      case Some(v) => v
      case None => fallback
    }
  }

  /** The outcome of an operation that can fail with a reason. */
  datatype Result<T, E> = Success(value: T) | Failure(error: E)

  /** JavaScript truthiness of a nullable string: present and not empty. */
  predicate Truthy(s: Option<string>) {
    s.Some? && s.value != []
  }
}
