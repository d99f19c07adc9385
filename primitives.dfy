/** Value types shared by the modules of this model: the CLR's 32-bit `int`
    and a nullable wrapper for reference-typed values that may be `null`. */
module Primitives {

  /** System.Int32: exit codes, middleware priorities and process ids. */
  newtype int32 = x: int | -0x8000_0000 <= x < 0x8000_0000

  /** int.MinValue */
  const Int32Min: int32 := -0x8000_0000

  /** A reference that may be null. */
  datatype Option<+T> = None | Some(value: T) {

    /** The null-coalescing `this ?? otherwise`. */
    function GetOr(otherwise: T): T
    {
      match this
      case Some(v) => v
      case None => otherwise
    }
  }
}
