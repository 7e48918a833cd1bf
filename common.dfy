/** Small value types shared by the whole model: the optional value that stands
    for a nullable reference, and the fixed-width integers of the source. */
module Common {

  /** A nullable reference or an absent value. Failure-compatible, so that
      `:-` models an exception that propagates to the caller. */
  datatype Option<+T> = None | Some(value: T) {
    predicate IsFailure() { None? }

    function PropagateFailure<U>(): Option<U>
      requires None?
    {
      None
    }

    function Extract(): T
      requires Some?
    {
      value
    }
  }

  /** An unsigned 8-bit value (`byte`). */
  newtype byte = b: int | 0 <= b < 0x100

  /** A signed 32-bit value (`int`): enums, counts and the integer fields. */
  newtype int32 = x: int | -0x8000_0000 <= x < 0x8000_0000

  /** The largest length a .NET list or array can report through `Count`. */
  const MaxCount: nat := 0x7fff_ffff
}
