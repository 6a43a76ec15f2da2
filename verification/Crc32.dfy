/** The CRC-32 of PNG chunks (section 3.4 of RFC 2083), computed bit by bit as in src/bridge/content_png.h. */
module Crc32 {
  /** An unsigned 8-bit value, held in a register-wide word as the C++ integer promotions hold it. */
  type octet = b: bv32 | b < 0x100

  const POLYNOMIAL: bv32 := 0xedb88320
  const ALL_ONES: bv32 := 0xffffffff

  /** One bit of the division: shift out the low bit, subtract the polynomial when it was set. */
  function Step(crc: bv32): bv32 {
    (crc >> 1) ^ (if crc & 1 == 1 then POLYNOMIAL else 0)
  }

  function Steps(crc: bv32, n: nat): bv32 {
    if n == 0 then crc else Step(Steps(crc, n - 1))
  }

  function FeedByte(crc: bv32, b: octet): bv32 {
    Steps(crc ^ b, 8)
  }

  function Feed(crc: bv32, s: seq<octet>): bv32 {
    if s == [] then crc else FeedByte(Feed(crc, s[..|s| - 1]), s[|s| - 1])
  }

  function Crc(s: seq<octet>): bv32 {
    Feed(ALL_ONES, s) ^ ALL_ONES
  }

  /** The nested loops over the type and body of one chunk. */
  method Compute(s: seq<octet>) returns (crc: bv32)
    ensures crc == Crc(s)
  {
    crc := ALL_ONES;
    for i := 0 to |s|
      invariant crc == Feed(ALL_ONES, s[..i])
    {
      crc := crc ^ s[i];
      ghost var before := crc;
      for bit := 0 to 8
        invariant crc == Steps(before, bit)
      {
        crc := (crc >> 1) ^ (POLYNOMIAL & (0 - (crc & 1)));
        MaskIsChoice(Steps(before, bit));
      }
      assert s[..i + 1][..i] == s[..i];
    }
    assert s[..|s|] == s;
    crc := crc ^ ALL_ONES;
  }

  /** The branch-free mask of the source selects the polynomial exactly when the low bit is set. */
  lemma MaskIsChoice(crc: bv32)
    ensures (crc >> 1) ^ (POLYNOMIAL & (0 - (crc & 1))) == Step(crc)
  {
    assert crc & 1 == 0 || crc & 1 == 1;
  }

  // ---- The bit step loses nothing ----

  lemma StepInjective(a: bv32, b: bv32)
    requires Step(a) == Step(b)
    ensures a == b
  {}

  lemma {:induction false} StepsInjective(a: bv32, b: bv32, n: nat)
    requires Steps(a, n) == Steps(b, n)
    ensures a == b
  {
    if n > 0 {
      StepInjective(Steps(a, n - 1), Steps(b, n - 1));
      StepsInjective(a, b, n - 1);
    }
  }

  lemma XorCancels(a: bv32, b: bv32, c: bv32)
    requires a ^ c == b ^ c
    ensures a == b
  {}

  lemma FeedByteInjective(a: bv32, b: bv32, last: octet)
    requires FeedByte(a, last) == FeedByte(b, last)
    ensures a == b
  {
    hide Steps;
    StepsInjective(a ^ last, b ^ last, 8);
    XorCancels(a, b, last);
  }

  lemma {:induction false} FeedInjective(a: bv32, b: bv32, s: seq<octet>)
    requires Feed(a, s) == Feed(b, s)
    ensures a == b
  {
    hide FeedByte;
    if s != [] {
      FeedByteInjective(Feed(a, s[..|s| - 1]), Feed(b, s[..|s| - 1]), s[|s| - 1]);
      FeedInjective(a, b, s[..|s| - 1]);
    }
  }

  lemma {:induction false} FeedConcat(crc: bv32, s: seq<octet>, t: seq<octet>)
    ensures Feed(crc, s + t) == Feed(Feed(crc, s), t)
  {
    if t == [] {
      assert s + t == s;
    } else {
      assert (s + t)[..|s + t| - 1] == s + t[..|t| - 1];
      FeedConcat(crc, s, t[..|t| - 1]);
    }
  }

  // ---- Four bytes act on the register like one 32-bit word ----

  function Xor(a: bv32, b: bv32): bv32 {
    a ^ b
  }

  function Half(w: bv32): bv32 {
    w >> 1
  }

  predicate Even(w: bv32) {
    w & 1 == 0
  }

  function Up8(w: bv32): bv32 {
    w << 8
  }

  function Down8(w: bv32): bv32 {
    w >> 8
  }

  lemma StepShift(a: bv32, w: bv32)
    requires Even(w)
    ensures Step(Xor(a, w)) == Xor(Step(a), Half(w))
  {
    RawStepShift(a, w);
  }

  lemma LowBitKept(a: bv32, w: bv32)
    requires w & 1 == 0
    ensures (a ^ w) & 1 == a & 1
  {}

  lemma ShiftDistributes(a: bv32, w: bv32)
    ensures (a ^ w) >> 1 == (a >> 1) ^ (w >> 1)
  {}

  lemma XorSwaps(x: bv32, y: bv32, z: bv32)
    ensures (x ^ y) ^ z == (x ^ z) ^ y
  {}

  lemma RawStepShift(a: bv32, w: bv32)
    requires w & 1 == 0
    ensures Step(a ^ w) == Step(a) ^ (w >> 1)
  {
    LowBitKept(a, w);
    ShiftDistributes(a, w);
    XorSwaps(a >> 1, w >> 1, if a & 1 == 1 then POLYNOMIAL else 0);
  }

  lemma FourSteps(a: bv32, w: bv32)
    requires Even(w) && Even(Half(w)) && Even(Half(Half(w))) && Even(Half(Half(Half(w))))
    ensures Steps(Xor(a, w), 4) == Xor(Steps(a, 4), Half(Half(Half(Half(w)))))
  {
    hide Step, Xor, Half, Even;
    StepShift(a, w);
    StepShift(Step(a), Half(w));
    StepShift(Step(Step(a)), Half(Half(w)));
    StepShift(Step(Step(Step(a))), Half(Half(Half(w))));
    Unroll4(a);
    Unroll4(Xor(a, w));
  }

  lemma Unroll4(a: bv32)
    ensures Steps(a, 4) == Step(Step(Step(Step(a))))
  {
    hide Step;
    assert Steps(a, 1) == Step(a);
    assert Steps(a, 2) == Step(Steps(a, 1));
    assert Steps(a, 3) == Step(Steps(a, 2));
  }

  lemma {:induction false} StepsAdd(a: bv32, m: nat, n: nat)
    ensures Steps(Steps(a, m), n) == Steps(a, m + n)
  {
    hide Step;
    if n > 0 {
      StepsAdd(a, m, n - 1);
    }
  }

  lemma ShiftedBits(w: bv32)
    ensures var v := Up8(w); Even(v) && Even(Half(v)) && Even(Half(Half(v))) && Even(Half(Half(Half(v))))
    ensures var v := Half(Half(Half(Half(Up8(w)))));
            Even(v) && Even(Half(v)) && Even(Half(Half(v))) && Even(Half(Half(Half(v))))
    ensures Half(Half(Half(Half(Half(Half(Half(Half(Up8(w))))))))) == Down8(Up8(w))
  {}

  /** What stands eight bits higher in the register is moved down eight bits unchanged by eight steps. */
  lemma ByteShift(a: bv32, w: bv32)
    ensures Steps(Xor(a, Up8(w)), 8) == Xor(Steps(a, 8), Down8(Up8(w)))
  {
    hide Steps, Xor, Half, Even, Up8, Down8;
    ShiftedBits(w);
    FourSteps(a, Up8(w));
    FourSteps(Steps(a, 4), Half(Half(Half(Half(Up8(w))))));
    StepsAdd(a, 4, 4);
    StepsAdd(Xor(a, Up8(w)), 4, 4);
  }

  /** Four bytes as one word, the first byte lowest. */
  function Little(b0: octet, b1: octet, b2: octet, b3: octet): bv32 {
    Xor(b0, Up8(Little3(b1, b2, b3)))
  }

  function Little3(b1: octet, b2: octet, b3: octet): bv32 {
    Xor(b1, Up8(Little2(b2, b3)))
  }

  function Little2(b2: octet, b3: octet): bv32 {
    Xor(b2, Up8(b3))
  }

  lemma LittleInjective(a0: octet, a1: octet, a2: octet, a3: octet, b0: octet, b1: octet, b2: octet, b3: octet, c: bv32)
    requires Xor(c, Little(a0, a1, a2, a3)) == Xor(c, Little(b0, b1, b2, b3))
    ensures a0 == b0 && a1 == b1 && a2 == b2 && a3 == b3
  {}

  lemma LittleFits(b1: octet, b2: octet, b3: octet)
    ensures Down8(Up8(Little3(b1, b2, b3))) == Little3(b1, b2, b3)
    ensures Down8(Up8(Little2(b2, b3))) == Little2(b2, b3)
    ensures Down8(Up8(b3)) == b3
  {}

  lemma XorAssociates(a: bv32, b: bv32, c: bv32)
    ensures Xor(a, Xor(b, c)) == Xor(Xor(a, b), c)
  {}

  lemma FeedByteXor(c: bv32, b: octet)
    ensures FeedByte(c, b) == Steps(Xor(c, b), 8)
  {
    hide Steps;
  }

  /** One byte of a word: the rest of the word is still to be fed, eight bits lower. */
  lemma FeedLow(c: bv32, b: octet, rest: bv32)
    requires Down8(Up8(rest)) == rest
    ensures Steps(Xor(c, Xor(b, Up8(rest))), 8) == Xor(FeedByte(c, b), rest)
  {
    hide Steps, Xor, Up8, Down8, FeedByte;
    XorAssociates(c, b, Up8(rest));
    ByteShift(Xor(c, b), rest);
    FeedByteXor(c, b);
  }

  function Four(c: bv32, b0: octet, b1: octet, b2: octet, b3: octet): bv32 {
    FeedByte(FeedByte(FeedByte(FeedByte(c, b0), b1), b2), b3)
  }

  function Steps32(c: bv32): bv32 {
    Steps(Steps(Steps(Steps(c, 8), 8), 8), 8)
  }

  lemma FourIsWord(c: bv32, b0: octet, b1: octet, b2: octet, b3: octet)
    ensures Four(c, b0, b1, b2, b3) == Steps32(Xor(c, Little(b0, b1, b2, b3)))
  {
    hide Steps, Xor, Up8, Down8, FeedByte;
    LittleFits(b1, b2, b3);
    FeedLow(c, b0, Little3(b1, b2, b3));
    FeedLow(FeedByte(c, b0), b1, Little2(b2, b3));
    FeedLow(FeedByte(FeedByte(c, b0), b1), b2, b3);
    FeedByteXor(FeedByte(FeedByte(FeedByte(c, b0), b1), b2), b3);
  }

  lemma Steps32Injective(a: bv32, b: bv32)
    requires Steps32(a) == Steps32(b)
    ensures a == b
  {
    hide Steps;
    StepsInjective(Steps(Steps(Steps(a, 8), 8), 8), Steps(Steps(Steps(b, 8), 8), 8), 8);
    StepsInjective(Steps(Steps(a, 8), 8), Steps(Steps(b, 8), 8), 8);
    StepsInjective(Steps(a, 8), Steps(b, 8), 8);
    StepsInjective(a, b, 8);
  }

  lemma FeedFour(c: bv32, s: seq<octet>)
    requires |s| == 4
    ensures Feed(c, s) == Four(c, s[0], s[1], s[2], s[3])
  {
    assert s[..3][..2] == s[..2] && s[..2][..1] == s[..1] && s[..1][..0] == [];
    assert Feed(c, s[..1]) == FeedByte(c, s[0]);
    assert Feed(c, s[..2]) == FeedByte(Feed(c, s[..1]), s[1]);
    assert Feed(c, s[..3]) == FeedByte(Feed(c, s[..2]), s[2]);
  }

  lemma FourBytesInjective(c: bv32, x: seq<octet>, y: seq<octet>)
    requires |x| == 4 && |y| == 4 && Feed(c, x) == Feed(c, y)
    ensures x == y
  {
    hide Steps32, Xor, Little, Four;
    FeedFour(c, x);
    FeedFour(c, y);
    FourIsWord(c, x[0], x[1], x[2], x[3]);
    FourIsWord(c, y[0], y[1], y[2], y[3]);
    Steps32Injective(Xor(c, Little(x[0], x[1], x[2], x[3])), Xor(c, Little(y[0], y[1], y[2], y[3])));
    LittleInjective(x[0], x[1], x[2], x[3], y[0], y[1], y[2], y[3], c);
  }

  /** A difference of at most four consecutive bytes is always visible in the register. */
  lemma BurstInjective(c: bv32, x: seq<octet>, y: seq<octet>)
    requires |x| == |y| <= 4 && Feed(c, x) == Feed(c, y)
    ensures x == y
  {
    var pad := seq(4 - |x|, _ => 0);
    FeedConcat(c, x, pad);
    FeedConcat(c, y, pad);
    FourBytesInjective(c, x + pad, y + pad);
    assert x == (x + pad)[..|x|] && y == (y + pad)[..|x|];
  }

  lemma CrcRevealsFeed(s: seq<octet>, t: seq<octet>)
    requires Crc(s) == Crc(t)
    ensures Feed(ALL_ONES, s) == Feed(ALL_ONES, t)
  {
    XorCancels(Feed(ALL_ONES, s), Feed(ALL_ONES, t), ALL_ONES);
  }

  /** Whatever surrounds it and however long the data is, a burst of up to 32 bits changes the CRC. */
  lemma CrcDetectsBurst(before: seq<octet>, x: seq<octet>, y: seq<octet>, after: seq<octet>)
    requires |x| == |y| <= 4
    ensures Crc(before + x + after) == Crc(before + y + after) <==> x == y
  {
    hide Crc, Feed;
    if Crc(before + x + after) == Crc(before + y + after) {
      CrcRevealsFeed(before + x + after, before + y + after);
      FeedConcat(ALL_ONES, before + x, after);
      FeedConcat(ALL_ONES, before + y, after);
      FeedInjective(Feed(ALL_ONES, before + x), Feed(ALL_ONES, before + y), after);
      FeedConcat(ALL_ONES, before, x);
      FeedConcat(ALL_ONES, before, y);
      BurstInjective(Feed(ALL_ONES, before), x, y);
    }
  }

  lemma ByteValue(c: bv32, b: octet, r: bv32)
    requires Step(Step(Step(Step(Step(Step(Step(Step(c ^ b)))))))) == r
    ensures FeedByte(c, b) == r
  {
    hide Step;
    Unroll4(c ^ b);
    Unroll4(Steps(c ^ b, 4));
    StepsAdd(c ^ b, 4, 4);
  }

  /** The CRC every PNG file carries in its last four bytes: that of the type IEND with no body. */
  lemma EndCrc()
    ensures Crc([0x49, 0x45, 0x4e, 0x44]) == 0xae426082
  {
    hide FeedByte;
    FeedFour(ALL_ONES, [0x49, 0x45, 0x4e, 0x44]);
    ByteValue(ALL_ONES, 0x49, 0x22fde946);
    ByteValue(0x22fde946, 0x45, 0x992bac53);
    ByteValue(0x992bac53, 0x4e, 0x639f4775);
    ByteValue(0x639f4775, 0x44, 0x51bd9f7d);
  }
}
