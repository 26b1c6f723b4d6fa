/** Wrappers used throughout the model: a nullable reference
    is an `Option`, a call that either returns or throws is a `Result`, and a
    check that either passes or throws is an `Outcome`. */
module Wrappers {

  /** `None` stands for a C# `null` reference or an absent value. */
  datatype Option<T> = None | Some(value: T)

  /** A call that returns `value` or throws `error`. */
  datatype Result<R, E> = Success(value: R) | Failure(error: E)

  /** A void call that returns normally or throws `error`. */
  datatype Outcome<E> = Pass | Fail(error: E)
}
