/** Small result types shared by the other modules. */
module Wrappers {

  datatype Option<+T> = None | Some(value: T)

  /** How a call that may throw ends: normally, or with the error it propagates. */
  datatype Outcome = Pass | Fail(error: string)
}
