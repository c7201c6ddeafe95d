/** Go values the middleware works with: strings are byte strings (Go's `len`
    and slicing count bytes), and the two shapes in which Go code returns
    "a value or nothing" and "a value or an error". */
module GoTypes {

  newtype byte = b: int | 0 <= b < 256

  /** A Go `string`: an immutable sequence of bytes. */
  type Str = seq<byte>

  /** The bytes of a Go string literal written in ASCII. */
  function Ascii(s: string): (r: Str)
    requires forall i :: 0 <= i < |s| ==> s[i] < 128 as char
    ensures |r| == |s|
    ensures forall i :: 0 <= i < |s| ==> r[i] as int == s[i] as int
  {
    seq(|s|, i requires 0 <= i < |s| => s[i] as int as byte)
  }

  /** A Go value that may be nil. */
  datatype Option<+T> = None | Some(value: T)

  /** The `(value, error)` pair of a Go function: exactly one of the two is meaningful. */
  datatype Result<+T, +E> = Success(value: T) | Failure(error: E)
}
