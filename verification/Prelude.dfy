/** Result types and machine integers shared by every module. */
module Prelude {

  datatype Option<+T> = None | Some(value: T)

  datatype Result<+T, +E> = Ok(value: T) | Err(error: E) {
    predicate IsFailure() { Err? }

    function PropagateFailure<U>(): Result<U, E>
      requires Err?
    {
      Err(error)
    }

    function Extract(): T
      requires Ok?
    {
      value
    }
  }

  const INT64_LIMIT: int := 0x8000_0000_0000_0000

  /** Go's int and int64 on the platforms the services run on. */
  type Int64 = x: int | -0x8000_0000_0000_0000 <= x < 0x8000_0000_0000_0000

  /** An instant; Go's zero time.Time is the instant 0. */
  type Time = int

  const ZERO_TIME: Time := 0

  /** What became of a write to a topic: one that reports an error may have happened. */
  datatype WriteFate = Acknowledged | Failed | FailedButWritten

  function GetOr<T>(o: Option<T>, default: T): T {
    if o.Some? then o.value else default
  }
}
