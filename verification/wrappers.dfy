/** Small failure-carrying datatypes shared by every module of the model. */
module Wrappers {

  /** A value that may be absent: JavaScript `null`/`undefined` become `None`. */
  datatype Option<+T> = None | Some(value: T)

  /** A computation that either produces a value or fails with an error (a thrown exception). */
  datatype Result<+R, +E> = Success(value: R) | Failure(error: E)

  /** How an awaited HTTP call settled: the response body, or a rejection whose reason is not
      inspected by any caller. */
  datatype Fetched<+T> = Ok(data: T) | Err
}
