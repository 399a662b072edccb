/**
 * Shared vocabulary of the model: nullable values, the outcome of a vendor
 * call that either returns or throws, the reply of a remote call, and the
 * 32-bit signed integers that C# `int` stands for.
 */
module Outcomes {

  /** A nullable value: `None` stands for C#'s `null`. */
  datatype Option<+T> = None | Some(value: T)

  /**
   * The outcome of a vendor SDK call whose result the caller does not use:
   * it returns normally, or it throws (a `RequestFailedException` for the
   * Unity services, an `ApiException` for Cloud Save).
   */
  datatype Outcome = Returned | Threw

  /** The result of a remote call that yields a value, or the exception it raised. */
  datatype Reply<+T> = Value(value: T) | Failed

  const Int32Min: int := -0x8000_0000
  const Int32Max: int := 0x7FFF_FFFF

  /** C#'s `int`. */
  type Int32 = x: int | -0x8000_0000 <= x <= 0x7FFF_FFFF
}
