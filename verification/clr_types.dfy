/**
 * Value types of the .NET runtime that the other modules share: nullable
 * references as Option, exceptions as the Failure side of a Result, and the
 * fixed-width integers the source declares.
 */
module ClrTypes {

  /** A reference that may be null. */
  datatype Option<+T> = None | Some(value: T)

  /** The value of an expression, or the exception that ended it. */
  datatype Result<+R, +E> = Success(value: R) | Failure(error: E)

  /** A .NET `int`: a 32-bit two's-complement integer. */
  newtype int32 = x: int | -0x8000_0000 <= x < 0x8000_0000

  /** A .NET `byte`: an unsigned 8-bit integer. */
  newtype byte = x: int | 0 <= x < 0x100

  /** An exception object carried as data (an inner exception, a message error). */
  datatype Exception = Exception(typeName: string, message: string)
}
