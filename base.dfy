/** Value types shared by every part of the model: Java's nullable references,
    its exceptions, and the fixed-width integers the source stores. */
module Base {

  /** A Java reference that may be null. */
  datatype Option<+T> = None | Some(value: T) {
    function GetOr(default: T): T {
      match this
      case Some(v) => v
      case None => default
    }
  }

  /** The exceptions the modelled code throws. */
  datatype Error =
    | IllegalArgument(message: string)
    | NullPointer

  /** The outcome of a Java call that either returns a value or throws. */
  datatype Result<+T> = Ok(value: T) | Err(error: Error)

  /** The outcome of a Java call that returns nothing or throws. */
  datatype Outcome = Pass | Fail(error: Error)

  /** java.lang.Integer / int */
  type Int32 = x: int | -0x8000_0000 <= x < 0x8000_0000

  /** short */
  type Int16 = x: int | -0x8000 <= x < 0x8000

  /** byte */
  type Byte = x: int | -0x80 <= x < 0x80
}
