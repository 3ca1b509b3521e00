/** Small value types shared by every module of the model. */
module Common {

  /** A value that may be absent: the model's rendering of a C# `null`. */
  datatype Option<+T> = None | Some(value: T) {

    /** The C# `x ?? fallback` operator. */
    function GetOr(fallback: T): T {
      match this
      case Some(v) => v
      case None => fallback
    }
  }

  /** Either a value or the exception that the source would throw instead. */
  datatype Result<+T, +E> = Success(value: T) | Failure(error: E)

  /** One element of a `byte[]`. */
  newtype byte = x: int | 0 <= x < 256
}
