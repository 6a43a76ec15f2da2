/** The 64-bit FNV hash of src/bridge/native_history_context.cpp (hash_bytes), with its wrap-around written out. */
module Fnv {
  import opened Words

  const MODULUS: nat := 0x1_0000_0000_0000_0000
  const PRIME: nat := 1099511628211
  const BASIS: nat := 1469598103934665603

  /** Exclusive or of the low `bits` bits. */
  function Xor(x: nat, y: nat, bits: nat): (z: nat)
  {
    if bits == 0 then 0 else (if x % 2 != y % 2 then 1 else 0) + 2 * Xor(x / 2, y / 2, bits - 1)
  }

  function Pow2(n: nat): nat {
    if n == 0 then 1 else 2 * Pow2(n - 1)
  }

  lemma {:induction false} XorBound(x: nat, y: nat, bits: nat)
    ensures Xor(x, y, bits) < Pow2(bits)
  {
    if bits > 0 {
      XorBound(x / 2, y / 2, bits - 1);
    }
  }

  lemma {:induction false} XorCancels(x: nat, y: nat, bits: nat)
    requires x < Pow2(bits)
    ensures Xor(Xor(x, y, bits), y, bits) == x
  {
    if bits > 0 {
      XorCancels(x / 2, y / 2, bits - 1);
    }
  }

  lemma {:induction false} XorCommutes(x: nat, y: nat, bits: nat)
    ensures Xor(x, y, bits) == Xor(y, x, bits)
  {
    if bits > 0 {
      XorCommutes(x / 2, y / 2, bits - 1);
    }
  }

  lemma EightBits()
    ensures Pow2(8) == 256
  {
    assert Pow2(4) == 16;
  }

  /** A byte only meets the low eight bits of the hash. */
  function Mix(h: word64, b: byte): (r: word64)
  {
    XorBound(h % 256, b, 8);
    EightBits();
    h / 256 * 256 + Xor(h % 256, b, 8)
  }

  function Scale(h: word64): word64 {
    h * PRIME % MODULUS
  }

  function HashByte(h: word64, b: byte): word64 {
    Scale(Mix(h, b))
  }

  function HashBytes(h: word64, s: seq<byte>): word64 {
    if s == [] then h else HashByte(HashBytes(h, s[..|s| - 1]), s[|s| - 1])
  }

  method ComputeHash(h: word64, s: seq<byte>) returns (hash: word64)
    ensures hash == HashBytes(h, s)
  {
    hash := h;
    for i := 0 to |s|
      invariant hash == HashBytes(h, s[..i])
    {
      hash := Mix(hash, s[i]);
      hash := hash * PRIME % MODULUS;
      assert s[..i + 1][..i] == s[..i];
    }
    assert s[..|s|] == s;
  }

  // ---- One step, bit by bit ----

  function Bit(x: nat, k: nat): nat {
    if k == 0 then x % 2 else Bit(x / 2, k - 1)
  }

  lemma {:induction false} XorBits(x: nat, y: nat, bits: nat, k: nat)
    requires k < bits
    ensures Bit(Xor(x, y, bits), k) == 1 <==> Bit(x, k) != Bit(y, k)
  {
    if k > 0 {
      XorBits(x / 2, y / 2, bits - 1, k - 1);
    }
  }

  lemma ByteShift(x: nat, k: nat)
    requires k >= 8
    ensures Bit(x, k) == Bit(x / 256, k - 8)
  {
    ShiftFour(x, k);
    ShiftFour(x / 16, k - 4);
    assert x / 16 / 16 == x / 256;
  }

  lemma ShiftFour(x: nat, k: nat)
    requires k >= 4
    ensures Bit(x, k) == Bit(x / 16, k - 4)
  {
    assert Bit(x, k) == Bit(x / 2, k - 1) == Bit(x / 2 / 2, k - 2);
    assert x / 2 / 2 == x / 4;
    assert Bit(x / 4, k - 2) == Bit(x / 4 / 2, k - 3) == Bit(x / 4 / 2 / 2, k - 4);
    assert x / 4 / 2 / 2 == x / 16;
  }

  /** The low bits do not depend on what is added above them. */
  lemma {:induction false} LowBit(x: nat, y: nat, q: nat, n: nat, k: nat)
    requires k < n && x == y + q * Pow2(n)
    ensures Bit(x, k) == Bit(y, k)
  {
    var z := q * Pow2(n - 1);
    assert q * Pow2(n) == 2 * z;
    Halved(x, y, z);
    if k > 0 {
      LowBit(x / 2, y / 2, q, n - 1, k - 1);
    }
  }

  lemma Halved(x: nat, y: nat, z: nat)
    requires x == y + 2 * z
    ensures x % 2 == y % 2 && x / 2 == y / 2 + z
  {}

  lemma {:induction false} ZeroBits(k: nat)
    ensures Bit(0, k) == 0
  {
    if k > 0 {
      ZeroBits(k - 1);
    }
  }

  lemma MixBit(h: word64, b: byte, k: nat)
    ensures Bit(Mix(h, b), k) == 1 <==> Bit(h, k) != Bit(b, k)
  {
    var mixed := Mix(h, b);
    MixParts(h, b);
    EightBits();
    hide Mix, Xor, Pow2, Bit;
    if k < 8 {
      LowBit(mixed, mixed % 256, mixed / 256, 8, k);
      LowBit(h, h % 256, h / 256, 8, k);
      XorBits(h % 256, b, 8, k);
    } else {
      ByteShift(mixed, k);
      ByteShift(h, k);
      ByteShift(b, k);
      ZeroBits(k - 8);
      BitIsBit(h, k);
    }
  }

  /**
    A byte is added in the FNV-1a order: first the exclusive or, a word whose every bit is that of the hash or differs
    from it as the byte says, and then the multiplication modulo 2^64.
  */
  lemma StepMeaning(h: word64, b: byte) returns (mixed: word64)
    ensures forall k: nat :: Bit(mixed, k) == 1 <==> Bit(h, k) != Bit(b, k)
    ensures HashByte(h, b) == mixed * PRIME % MODULUS
  {
    hide Mix, Bit;
    mixed := Mix(h, b);
    forall k: nat ensures Bit(mixed, k) == 1 <==> Bit(h, k) != Bit(b, k) {
      MixBit(h, b, k);
    }
  }

  lemma {:induction false} BitIsBit(x: nat, k: nat)
    ensures Bit(x, k) <= 1
  {
    if k > 0 {
      BitIsBit(x / 2, k - 1);
    }
  }

  lemma XorStep(x: nat, y: nat, bits: nat)
    requires bits > 0
    ensures Xor(x, y, bits) == (if x % 2 != y % 2 then 1 else 0) + 2 * Xor(x / 2, y / 2, bits - 1)
    ensures bits == 1 ==> Xor(x, y, bits) == if x % 2 != y % 2 then 1 else 0
  {}

  lemma KnownXor()
    ensures Xor(131, 97, 8) == 226
  {
    hide Xor;
    XorStep(1, 0, 1);
    XorStep(2, 1, 2);
    XorStep(4, 3, 3);
    XorStep(8, 6, 4);
    XorStep(16, 12, 5);
    XorStep(32, 24, 6);
    XorStep(65, 48, 7);
    XorStep(131, 97, 8);
  }

  lemma KnownMix()
    ensures Mix(BASIS, 97) == 1469598103934665698
  {
    hide Xor;
    KnownXor();
    assert BASIS % 256 == 131;
  }

  /** The hash of the one byte 97 from the start value of the source. */
  lemma KnownHash()
    ensures HashBytes(BASIS, [97]) == 4953267810257967366
  {
    hide Mix;
    KnownMix();
    var s: seq<byte> := [97];
    assert s[..0] == [] && HashBytes(BASIS, []) == BASIS;
  }

  // ---- Nothing is lost in a step ----

  const INVERSE: nat := 0xce965057aff6957b
  const QUOTIENT: nat := 887285111055

  /** The multiplier is odd, so multiplication modulo 2^64 has an inverse. */
  lemma ScaleInjective(a: word64, b: word64)
    requires Scale(a) == Scale(b)
    ensures a == b
  {
    var t, u := a * PRIME / MODULUS, b * PRIME / MODULUS;
    assert (a - b) * PRIME == MODULUS * (t - u);
    assert PRIME * INVERSE == 1 + QUOTIENT * MODULUS;
    var z := (t - u) * INVERSE - QUOTIENT * (a - b);
    assert a - b == MODULUS * z;
  }

  lemma MixInjective(g: word64, h: word64, b: byte)
    requires Mix(g, b) == Mix(h, b)
    ensures g == h
  {
    MixParts(g, b);
    MixParts(h, b);
    EightBits();
    XorCancels(g % 256, b, 8);
    XorCancels(h % 256, b, 8);
  }

  lemma MixParts(h: word64, b: byte)
    ensures Mix(h, b) / 256 == h / 256 && Mix(h, b) % 256 == Xor(h % 256, b, 8)
  {
    hide Xor;
    EightBits();
    XorBound(h % 256, b, 8);
  }

  lemma MixSeparates(h: word64, b: byte, c: byte)
    requires Mix(h, b) == Mix(h, c)
    ensures b == c
  {
    MixParts(h, b);
    MixParts(h, c);
    EightBits();
    XorCommutes(h % 256, b, 8);
    XorCommutes(h % 256, c, 8);
    XorCancels(b, h % 256, 8);
    XorCancels(c, h % 256, 8);
  }

  lemma {:induction false} HashInjective(g: word64, h: word64, s: seq<byte>)
    requires HashBytes(g, s) == HashBytes(h, s)
    ensures g == h
  {
    hide Scale, Mix;
    if s != [] {
      var x, y, last := HashBytes(g, s[..|s| - 1]), HashBytes(h, s[..|s| - 1]), s[|s| - 1];
      ScaleInjective(Mix(x, last), Mix(y, last));
      MixInjective(x, y, last);
      HashInjective(g, h, s[..|s| - 1]);
    }
  }

  lemma {:induction false} HashConcat(h: word64, s: seq<byte>, t: seq<byte>)
    ensures HashBytes(h, s + t) == HashBytes(HashBytes(h, s), t)
  {
    hide HashByte;
    if t == [] {
      assert s + t == s;
    } else {
      assert (s + t)[..|s + t| - 1] == s + t[..|t| - 1];
      HashConcat(h, s, t[..|t| - 1]);
    }
  }

  /** One byte decides: with everything around it equal, the hashes are equal exactly when the bytes are. */
  lemma OneByteDecides(h: word64, before: seq<byte>, b: byte, c: byte, after: seq<byte>)
    ensures HashBytes(h, before + [b] + after) == HashBytes(h, before + [c] + after) <==> b == c
  {
    hide Scale, Mix;
    if HashBytes(h, before + [b] + after) == HashBytes(h, before + [c] + after) {
      HashConcat(h, before + [b], after);
      HashConcat(h, before + [c], after);
      HashInjective(HashBytes(h, before + [b]), HashBytes(h, before + [c]), after);
      var x := HashBytes(h, before);
      assert (before + [b])[..|before|] == before && (before + [c])[..|before|] == before;
      ScaleInjective(Mix(x, b), Mix(x, c));
      MixSeparates(x, b, c);
    }
  }
}
