/** The shapes of Go values that the rest of the model is written over. */
module GoBase {

  /** A Go `byte`. */
  type byte = b: int | 0 <= b < 256

  /** A Go `[]byte`; a Go `string` is modelled the same way, as the bytes it holds. */
  type Bytes = seq<byte>

  datatype Option<+T> = None | Some(value: T)

  datatype Result<+T, +E> = Success(value: T) | Failure(error: E)

  /** The bytes of a literal written in ASCII. */
  function Ascii(s: string): (b: Bytes)
    ensures |b| == |s|
  {
    seq(|s|, i requires 0 <= i < |s| => (s[i] as int) % 256)
  }
}
