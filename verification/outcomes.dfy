/** Values shared by both promise classes: the exceptions a call can raise,
    how a call into user code completes, and how a promise settles. */
module Outcomes {

  /** The conventional optional value; `None` stands for a field still holding
      its default (`default(T)` or `null`). */
  datatype Option<+T> = None | Some(value: T)

  /** An exception object. User code raises `UserException(id)`; the runtime
      raises `ArgumentOutOfRange` when `List.RemoveAt(0)` or the indexer `[0]`
      is applied to an empty list. */
  datatype Exn = UserException(id: nat) | ArgumentOutOfRange

  /** How a call into user code finished: it returned a value, or it threw. */
  datatype Completion<+R> = Returns(value: R) | Throws(error: Exn)

  /** The outcome one settlement call gives a promise: `Resolve(v)` or `Reject(e)`. */
  datatype Settlement<+T> = Fulfil(value: T) | Fail(error: Exn)

  /** The exception, if any, that a completed call lets escape to its caller. */
  function EscapeOf<R>(c: Completion<R>): Option<Exn>
  {
    match c
    case Returns(_) => None
    case Throws(e) => Some(e)
  }
}
