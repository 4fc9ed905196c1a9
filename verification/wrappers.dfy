/** Absent values and exception-carrying results. A Java `null` becomes `None`;
    a thrown exception becomes `Failure` (or `Fail` for an operation without a value). */
module Wrappers {

  datatype Option<+T> = None | Some(value: T)

  datatype Result<+R, +E> = Success(value: R) | Failure(error: E)

  datatype Outcome<+E> = Pass | Fail(error: E)
}
