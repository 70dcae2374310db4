/** The two Kotlin types the builder's API is written in: nullable values and the 32-bit `Int`. */
module KotlinTypes {

  /** `T?`: either `null` (None) or a present value. */
  datatype Option<+T> = None | Some(value: T) {

    /** Kotlin's safe call `x?.let(f)`: a present value is transformed, `null` stays `null`. */
    function Map<U>(f: T -> U): Option<U>
    {
      match this
      case None => None
      case Some(v) => Some(f(v))
    }
  }

  /** Kotlin's `Int`. */
  newtype int32 = x: int | -0x8000_0000 <= x < 0x8000_0000
}
