/** Wrappers: `Option` stands for a C# reference that may be
    null, `Result` for a call that either returns or throws. */
module Wrappers {

  /** A nullable reference: `None` is C#'s `null`. */
  datatype Option<+T> = None | Some(value: T)

  /** The outcome of a call: `Failure` is a thrown exception. */
  datatype Result<+R, +E> = Success(value: R) | Failure(error: E)
}
