/** Small failure-carrying datatypes shared by every module of the model. */
module Wrappers {

  /** A value that may be absent: JavaScript's `undefined`/`null` versus a present value. */
  datatype Option<+T> = None | Some(value: T)

  /** The answer of a call into the browser engine: it either completes with a
      value or throws an error carrying a message. */
  datatype Outcome<+T> = Done(value: T) | Threw(message: string)
}
