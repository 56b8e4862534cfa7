/** Failure-compatible wrappers and the clock type shared by every module. */
module Common {

  datatype Option<+T> = None | Some(value: T) {
    function GetOr(default: T): T {
      match this
      case Some(v) => v
      case None => default
    }
  }

  datatype Result<+R, +E> = Ok(value: R) | Err(error: E) {
    predicate IsFailure() { Err? }
    function PropagateFailure<U>(): Result<U, E>
      requires Err?
    {
      Err(error)
    }
    function Extract(): R
      requires Ok?
    {
      value
    }
  }

  datatype Outcome<+E> = Pass | Fail(error: E) {
    predicate IsFailure() { Fail? }
    function PropagateFailure(): Outcome<E>
      requires Fail?
    {
      this
    }
  }

  /** A point in time: microseconds since the epoch (the resolution of Python's datetime). */
  type Instant = int

  const MicrosPerSecond: int := 1_000_000
  const SecondsPerDay: int := 86_400
}
