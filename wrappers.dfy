/** Failure-compatible result types shared by the model.
    `Option` stands for a Java reference that may be null; `Result` for a
    value that is either returned or replaced by a thrown exception. */
module Wrappers {

  datatype Option<+T> = None | Some(value: T)

  /** `Failure` carries the exception's message text. */
  datatype Result<+T> = Success(value: T) | Failure(error: string)
}
