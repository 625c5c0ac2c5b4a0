/**
 * Failure-carrying results and the .NET exceptions that the editor code can
 * raise. Each operation that throws in the C# source returns one of these
 * instead, so that the error path is part of the model.
 */
module Wrappers {

  datatype Option<+T> = None | Some(value: T)

  datatype Result<+R, +E> = Success(value: R) | Failure(error: E)

  datatype Outcome<+E> = Pass | Fail(error: E)

  /** The runtime exceptions thrown by the modelled code paths. */
  datatype Exception =
    | DivideByZeroException        // integer division by zero
    | ArgumentOutOfRangeException  // negative List capacity
    | OverflowException            // array allocated with a negative dimension
    | IndexOutOfRangeException     // array read outside its bounds
    | NullReferenceException       // member access on an unassigned object field
    | KeyNotFoundException         // Dictionary indexer on a missing key

  function Abs(x: int): nat { if x < 0 then -x else x }

  /**
   * C#'s `int` division, which truncates toward zero (Dafny's `/` is
   * Euclidean). The remainder is smaller than the divisor in magnitude and,
   * when it is not zero, has the sign of the dividend.
   */
  function TruncDiv(a: int, b: int): (q: int)
    requires b != 0
    ensures Abs(a - b * q) < Abs(b)
    ensures a - b * q == 0 || (a - b * q > 0 <==> a > 0)
  {
    if a >= 0 && b > 0 then a / b
    else if a >= 0 then -(a / -b)
    else if b > 0 then -((-a) / b)
    else (-a) / (-b)
  }
}
