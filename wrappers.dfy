/** Option and Outcome: "maybe undefined" and "returned or threw". */
module Wrappers {

  datatype Option<+T> = None | Some(value: T)

  /** The result of a JavaScript call: it either returns a value or throws. */
  datatype Outcome<+T, +E> = Return(value: T) | Throw(error: E)
}
