/** Small failure-carrying datatypes shared by the quiz model. */
module Wrappers {

  /** A value that may be absent. */
  datatype Option<+T> = None | Some(value: T)

  /** Whether an operation went through, or the error it stopped with. */
  datatype Outcome<+E> = Pass | Fail(error: E)
}
