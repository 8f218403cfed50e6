/** Helper datatypes and arithmetic shared by the ledger and the controller. */
module Wrappers {

  /** A value that may be missing: an empty market-data frame, an absent drift override. */
  datatype Option<+T> = None | Some(value: T)

  /** The outcome of an operation that the source can abort with an exception. */
  datatype Result<+T, +E> = Success(value: T) | Failure(error: E)

  function Abs(x: real): (r: real)
    ensures r >= 0.0
    ensures r == x || r == -x
  {
    if x < 0.0 then -x else x
  }
}
