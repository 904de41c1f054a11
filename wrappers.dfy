/** Failure-carrying wrappers shared by every module of the model. */
module Wrappers {

  /** A value that may be absent: JavaScript's `undefined`/`null` versus a present value. */
  datatype Option<+T> = None | Some(value: T)

  /** What an awaited call into a foreign library produced: a value, or a thrown exception. */
  datatype Outcome<+T> = Done(value: T) | Threw
}
