/** Option and Result: absence (`null`/`undefined`) and thrown exceptions. */
module Wrappers {

  datatype Option<+T> = None | Some(value: T)

  /** `Failure(message)` stands for a call that threw; `message` is the error's text. */
  datatype Result<+R> = Success(value: R) | Failure(error: string)

  /** The outcome of a call whose returned value is not used. */
  datatype Outcome = Pass | Fail(error: string)
}
