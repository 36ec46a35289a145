/** Failure-compatible result shapes shared by the whole model.
    A Go `error` that may be nil is an `Option<Error>`; a validator that
    returns only an error is an `Outcome<Error>`. */
module Wrappers {

  datatype Option<+T> = None | Some(value: T)

  /** `Pass` is the Go validator returning nil; `Fail(e)` is it returning `e`. */
  datatype Outcome<+E> = Pass | Fail(error: E)
}
