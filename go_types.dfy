/**
 * Go value types the bridge passes around, written out in Dafny terms:
 * bytes and byte slices (which may be nil), fixed-width integers with Go's
 * conversions, errors, and the two ways a Go call can end (it returns, or it
 * panics).
 */
module GoTypes {

  /** A Go `byte`. */
  type byte = x: int | 0 <= x < 256

  type Bytes = seq<byte>

  const TwoTo63: int := 0x8000_0000_0000_0000
  const TwoTo64: int := 0x1_0000_0000_0000_0000

  /** A Go `uint64`. */
  type uint64 = x: int | 0 <= x < 0x1_0000_0000_0000_0000

  /** A Go `int64`. */
  type int64 = x: int | -0x8000_0000_0000_0000 <= x < 0x8000_0000_0000_0000

  /** A 32-byte hash (`common.Hash`, `[32]byte`). */
  type Hash32 = s: Bytes | |s| == 32 witness seq(32, _ => 0)

  datatype Option<+T> = None | Some(value: T)

  /** A Go `[]byte`; `None` is the nil slice. */
  type Slice = Option<Bytes>

  /** The bytes a slice holds; a nil slice holds none, which is how `bytes.Equal` treats it. */
  function SliceBytes(s: Slice): Bytes
  {
    match s
    case None => []
    case Some(b) => b
  }

  /** A Go `error` value: a message, or a message wrapping another error (`fmt.Errorf` with `%w`). */
  datatype Error = Error(msg: string) | Wrapped(msg: string, cause: Error)

  /** A value-or-error pair where exactly one of the two is present. */
  datatype Result<+T> = Ok(value: T) | Err(error: Error)

  /** How a Go call ends: it returns a value, or it panics (for instance on a nil dereference). */
  datatype Outcome<+T> = Returned(value: T) | Panicked(reason: string)

  /**
   * Go's conversion `uint64(x)` of a signed value: two's-complement wrap-around.
   * Dafny's `%` is Euclidean, so `x % 2^64` is the low 64 bits read unsigned;
   * this also covers an `int64` subtraction that wraps before the conversion.
   */
  function ToUint64(x: int): (r: uint64)
    ensures 0 <= x < TwoTo64 ==> r == x
    ensures -TwoTo64 <= x < 0 ==> r == x + TwoTo64
  {
    x % TwoTo64
  }

  /** Go's conversion `int64(u)` of a `uint64`: values from 2^63 up wrap to negatives. */
  function ToInt64(u: uint64): (r: int64)
    ensures ToUint64(r) == u
    ensures u < TwoTo63 <==> r >= 0
  {
    if u < TwoTo63 then u else u - TwoTo64
  }

  /** The bytes of a Go string, one per character (used for ASCII constants only). */
  function AsciiBytes(s: string): (b: Bytes)
    requires forall i :: 0 <= i < |s| ==> s[i] as int < 256
    ensures |b| == |s| && forall i :: 0 <= i < |s| ==> b[i] == s[i] as int
  {
    seq(|s|, i requires 0 <= i < |s| => s[i] as int)
  }

  /** Go's `string(b)`: each byte becomes the character with that code. */
  function BytesToString(b: Bytes): (s: string)
    ensures |s| == |b| && forall i :: 0 <= i < |b| ==> s[i] as int == b[i]
  {
    seq(|b|, i requires 0 <= i < |b| => b[i] as char)
  }
}
