/** Optional values and results, used wherever the service returns `null` or throws. */
module Wrappers {

  /** `None` stands for JavaScript's `null`/`undefined` result. */
  datatype Option<+T> = None | Some(value: T) {

    /** The encapsulated value, or `default` when there is none. */
    function GetOr(default: T): T {
      match this
      case Some(v) => v
      case None => default
    }
  }

  /** `Err` stands for a thrown error (or a rejected promise) carrying its cause. */
  datatype Result<+T, +E> = Ok(value: T) | Err(error: E)
}
