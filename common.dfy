/** Small value types shared by the modules of the model. */
module Common {

  /** A Kotlin nullable value: `None` stands for `null`. */
  datatype Option<+T> = None | Some(value: T) {
    function GetOr(default: T): T {
      match this
      case Some(v) => v
      case None => default
    }
  }

  /** Arrow's `Either`, with the error on the `Failure` side. */
  datatype Result<+T, +E> = Success(value: T) | Failure(error: E)

  /** Kotlin's `Int`, a 32-bit two's-complement integer, where it is used as a number. */
  type Int32 = x: int | -0x8000_0000 <= x < 0x8000_0000
}
