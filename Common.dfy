/** Shared vocabulary of the model: optional values, results, the exception
    kinds the core raises, and the 32-bit integers message ids are made of. */
module Common {

  datatype Option<+T> = None | Some(value: T)

  /** The outcome of an operation that returns a value or throws. */
  datatype Result<+T, +E> = Success(value: T) | Failure(error: E)

  /** The outcome of an operation that returns nothing or throws. */
  datatype Outcome<+E> = Pass | Fail(error: E)

  /** The exception types raised by the core, each with its message text. */
  datatype Fault =
    | DirectoryNotFound(message: string)   // System.IO.DirectoryNotFoundException
    | IOError(message: string)             // System.IO.IOException
    | SshError(message: string)            // Renci.SshNet.Common.SshException
    | ArgumentError(message: string)       // System.ArgumentException

  const Int32Modulus: int := 0x1_0000_0000
  const Int32Min: int := -0x8000_0000

  /** C#'s `int`. */
  newtype int32 = x: int | -0x8000_0000 <= x < 0x8000_0000

  /** C#'s unchecked `int` addition: the mathematical sum reduced into the
      32-bit range, wrapping around on overflow. */
  function WrappingAdd(a: int32, b: int32): (r: int32)
    ensures (r as int - (a as int + b as int)) % Int32Modulus == 0
    ensures Int32Min <= a as int + b as int < -Int32Min ==> r as int == a as int + b as int
  {
    ((a as int + b as int - Int32Min) % Int32Modulus + Int32Min) as int32
  }
}
