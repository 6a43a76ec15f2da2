/** Numbers of fixed width. Floats appear only as the 32-bit words they are stored in. */
module Words {
  type byte = x: nat | x < 256

  type word = x: nat | x < 0x1_0000_0000

  type word64 = x: nat | x < 0x1_0000_0000_0000_0000

  type int32 = i: int | -0x8000_0000 <= i < 0x8000_0000

  function Zeros(n: nat): (s: seq<byte>)
    ensures |s| == n && forall i :: 0 <= i < n ==> s[i] == 0
  {
    if n == 0 then [] else [0] + Zeros(n - 1)
  }

  /** The signed value of a word, and back. */
  function Signed(w: word): int32 {
    if w < 0x8000_0000 then w else w - 0x1_0000_0000
  }

  function Unsigned(i: int32): word {
    if i >= 0 then i else i + 0x1_0000_0000
  }

  /** The float with these bits is finite, greater than zero, at least zero. Minus zero is at least zero. */
  predicate Finite(w: word) {
    w / 0x80_0000 % 256 != 255
  }

  predicate Positive(w: word) {
    Finite(w) && 0 < w < 0x8000_0000
  }

  predicate NonNegative(w: word) {
    Finite(w) && w <= 0x8000_0000
  }
}
