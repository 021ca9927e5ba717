/** Failure-carrying wrappers shared by the model: `Option` stands for a
    JavaScript value that may be `undefined`/`null`, `Result` for a promise
    that either resolves to a value or rejects with an error. */
module Wrappers {

  datatype Option<+T> = None | Some(value: T)

  datatype Result<+R, +E> = Success(value: R) | Failure(error: E)
}
