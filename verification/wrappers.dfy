/** Failure-compatible wrappers shared by every component of the model:
    `Option` stands for a Python value that may be `None` (or a missing key),
    `Result` for a call that either returns a value or raises an exception,
    whose message is carried in `Failure`.
 */
module Wrappers {

  datatype Option<+T> = None | Some(value: T) {

    /** `d.get(key, default)` once the lookup has produced this option. */
    function GetOr(default: T): T {
      match this
      case Some(v) => v
      case None => default
    }
  }

  datatype Result<+R, +E> = Success(value: R) | Failure(error: E) {

    predicate IsFailure() {
      Failure?
    }

    function PropagateFailure<U>(): Result<U, E>
      requires Failure?
    {
      Failure(error)
    }

    function Extract(): R
      requires Success?
    {
      value
    }

    /** Forgets the error: the `try: … except: pass` reading of a call. */
    function ToOption(): Option<R> {
      match this
      case Success(v) => Some(v)
      case Failure(_) => None
    }
  }
}
