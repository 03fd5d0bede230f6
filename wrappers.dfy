/** Absence and failure as values: `Option` for JavaScript's `undefined`
    where a value may be missing, `Result` for an operation that either
    yields a value or throws an error with a message. */
module Wrappers {

  datatype Option<+T> = None | Some(value: T)

  datatype Result<+T> = Ok(value: T) | Fail(msg: string)
}
