/** An optional value and a value-or-error result. */
module Wrappers {

  /** An optional value; `None` stands for a field the record does not have. */
  datatype Option<+T> = None | Some(value: T)

  /** Either a computed value or the error the computation raised. */
  datatype Result<+R, +E> = Success(value: R) | Failure(error: E)
}
