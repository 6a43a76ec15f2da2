/** The creation PNG container checker of src/bridge/content_png.h. Chunk layout: section 3.2 of RFC 2083. */
module PngEnvelope {
  import opened Crc32

  const SIGNATURE: seq<octet> := [137, 80, 78, 71, 13, 10, 26, 10]
  const IHDR: seq<octet> := [0x49, 0x48, 0x44, 0x52]
  const IDAT: seq<octet> := [0x49, 0x44, 0x41, 0x54]
  const IEND: seq<octet> := [0x49, 0x45, 0x4e, 0x44]
  const MAX_BYTES := 4 * 1024 * 1024

  datatype Verdict =
    | Accepted | SizeLimit | BadSignature | ChunkBounds | BadCrc | BadHeader | FormatUnqualified
    | EmptyPixels | EndOrTrailingBytes | ChunkUnqualified | MissingEnd

  // ---- Words and chunks ----

  function Join(a: bv32, b: bv32, c: bv32, d: bv32): bv32 {
    (a << 24) | (b << 16) | (c << 8) | d
  }

  function Word(s: seq<octet>): bv32
    requires |s| == 4
  {
    Join(s[0], s[1], s[2], s[3])
  }

  function WordBytes(w: bv32): (s: seq<octet>)
    ensures |s| == 4
  {
    [w >> 24, (w >> 16) & 0xff, (w >> 8) & 0xff, w & 0xff]
  }

  /** The size_t a length field stands for. */
  function Size(w: bv32): nat {
    w as nat
  }

  lemma JoinSplits(a: octet, b: octet, c: octet, d: octet)
    ensures var w := Join(a, b, c, d);
            w >> 24 == a && (w >> 16) & 0xff == b && (w >> 8) & 0xff == c && w & 0xff == d
  {}

  lemma SplitJoins(w: bv32)
    ensures Join(w >> 24, (w >> 16) & 0xff, (w >> 8) & 0xff, w & 0xff) == w
  {}

  lemma WordOfBytes(w: bv32)
    ensures Word(WordBytes(w)) == w
  {
    hide Join;
    SplitJoins(w);
  }

  lemma BytesOfWord(s: seq<octet>)
    requires |s| == 4
    ensures WordBytes(Word(s)) == s
  {
    hide Join;
    JoinSplits(s[0], s[1], s[2], s[3]);
  }

  lemma WordInjective(s: seq<octet>, t: seq<octet>)
    requires |s| == 4 && |t| == 4 && Word(s) == Word(t)
    ensures s == t
  {
    hide Word, WordBytes;
    BytesOfWord(s);
    BytesOfWord(t);
  }

  /** The four parts of a chunk, as RFC 2083 lays them out. */
  datatype Chunk = Chunk(length: bv32, kind: seq<octet>, body: seq<octet>, crc: bv32) {
    predicate Shaped() {
      |kind| == 4 && |body| == Size(length)
    }

    predicate Intact() {
      Crc(kind + body) == crc
    }

    function Print(): (s: seq<octet>)
      ensures |s| == 8 + |kind| + |body|
    {
      WordBytes(length) + kind + body + WordBytes(crc)
    }
  }

  function PrintAll(cs: seq<Chunk>): seq<octet> {
    if cs == [] then [] else cs[0].Print() + PrintAll(cs[1..])
  }

  /** RGBA8, no interlacing, at most 512 by 512 pixels. */
  predicate QualifiedHeader(body: seq<octet>)
    requires |body| == 13
  {
    && 0 < Word(body[..4]) <= 512 && 0 < Word(body[4..8]) <= 512
    && body[8..] == [8, 6, 0, 0, 0]
  }

  predicate GoodHeader(c: Chunk) {
    c.Shaped() && c.Intact() && c.kind == IHDR && |c.body| == 13 && QualifiedHeader(c.body)
  }

  predicate GoodPixels(c: Chunk) {
    c.Shaped() && c.Intact() && c.kind == IDAT && c.body != []
  }

  predicate GoodEnd(c: Chunk) {
    c.Shaped() && c.Intact() && c.kind == IEND && c.body == []
  }

  /** The grammar: one qualified header, at least one nonempty pixel chunk, one empty end; at most 128 chunks. */
  predicate Envelope(cs: seq<Chunk>) {
    && 3 <= |cs| <= 128
    && GoodHeader(cs[0])
    && (forall i :: 0 < i < |cs| - 1 ==> GoodPixels(cs[i]))
    && GoodEnd(cs[|cs| - 1])
  }

  ghost predicate IsEnvelopeOf(cs: seq<Chunk>, data: seq<octet>) {
    Envelope(cs) && data == SIGNATURE + PrintAll(cs)
  }

  ghost predicate InLanguage(data: seq<octet>) {
    |data| <= MAX_BYTES && exists cs :: IsEnvelopeOf(cs, data)
  }

  // ---- The checker ----

  function ChunkAt(data: seq<octet>, offset: nat): (c: Chunk)
    requires offset + 12 <= |data|
    requires Size(Word(data[offset..offset + 4])) <= |data| - offset - 12
    ensures c.Shaped() && |c.body| == Size(Word(data[offset..offset + 4]))
  {
    var length := Word(data[offset..offset + 4]);
    var n := Size(length);
    Chunk(length, data[offset + 4..offset + 8], data[offset + 8..offset + 8 + n],
          Word(data[offset + 8 + n..offset + 12 + n]))
  }

  /** What the loop decides from one offset on, with so many chunks and pixel bytes already seen. */
  function CheckFrom(data: seq<octet>, offset: nat, chunks: nat, pixels: nat): Verdict
    requires offset <= |data|
    decreases |data| - offset
  {
    if offset == |data| then MissingEnd
    else if chunks == 128 || |data| - offset < 12 then ChunkBounds
    else if Size(Word(data[offset..offset + 4])) > |data| - offset - 12 then ChunkBounds
    else
      var c := ChunkAt(data, offset);
      var next := offset + |c.body| + 12;
      if !c.Intact() then BadCrc
      else if chunks == 0 then
        if c.kind != IHDR || |c.body| != 13 then BadHeader
        else if !QualifiedHeader(c.body) then FormatUnqualified
        else CheckFrom(data, next, 1, pixels)
      else if c.kind == IDAT then
        if c.body == [] then EmptyPixels else CheckFrom(data, next, chunks + 1, pixels + |c.body|)
      else if c.kind == IEND then
        if c.body != [] || pixels == 0 || next != |data| then EndOrTrailingBytes else Accepted
      else ChunkUnqualified
  }

  function Check(data: seq<octet>): Verdict {
    if |data| < 57 || |data| > MAX_BYTES then SizeLimit
    else if data[..8] != SIGNATURE then BadSignature
    else CheckFrom(data, 8, 0, 0)
  }

  /** One pass over the buffer. Dafny's bounds checks are the proof that no read leaves it. */
  method CreationPngEnvelope(data: seq<octet>) returns (verdict: Verdict)
    ensures verdict == Check(data)
    ensures verdict == Accepted <==> InLanguage(data)
  {
    hide Word, WordBytes, Size, Crc, InLanguage, ChunkAt;
    AcceptedLanguage(data);
    if |data| < 57 || |data| > MAX_BYTES {
      return SizeLimit;
    }
    if data[..8] != SIGNATURE {
      return BadSignature;
    }
    var offset: nat, chunks: nat, pixels: nat := 8, 0, 0;
    while offset < |data|
      invariant 8 <= offset <= |data| && chunks <= 128
      invariant CheckFrom(data, 8, 0, 0) == CheckFrom(data, offset, chunks, pixels)
    {
      if chunks + 1 > 128 || |data| - offset < 12 {
        return ChunkBounds;
      }
      chunks := chunks + 1;
      var length := Size(Word(data[offset..offset + 4]));
      if length > |data| - offset - 12 {
        return ChunkBounds;
      }
      var c := ChunkAt(data, offset);
      var kind, body := c.kind, c.body;
      var crc := Compute(kind + body);
      if crc != c.crc {
        return BadCrc;
      }
      if chunks == 1 {
        if kind != IHDR || length != 13 {
          return BadHeader;
        }
        var width, height := Word(body[..4]), Word(body[4..8]);
        if width == 0 || height == 0 || width > 512 || height > 512 || body[8] != 8 || body[9] != 6 ||
           body[10] != 0 || body[11] != 0 || body[12] != 0 {
          return FormatUnqualified;
        }
        assert body[8..] == [8, 6, 0, 0, 0];
      } else if kind == IDAT {
        if length == 0 {
          return EmptyPixels;
        }
        pixels := pixels + length;
      } else if kind == IEND {
        if length != 0 || pixels == 0 || offset + 12 != |data| {
          return EndOrTrailingBytes;
        }
        return Accepted;
      } else {
        return ChunkUnqualified;
      }
      offset := offset + length + 12;
    }
    return MissingEnd;
  }

  // ---- The accepted language ----

  /** What must follow once some chunks have been read. */
  predicate Tail(cs: seq<Chunk>, chunks: nat, pixels: nat) {
    && cs != [] && chunks + |cs| <= 128
    && (chunks == 0 ==> |cs| >= 3 && GoodHeader(cs[0]))
    && (forall i :: 0 <= i < |cs| - 1 && (chunks > 0 || i > 0) ==> GoodPixels(cs[i]))
    && GoodEnd(cs[|cs| - 1])
    && (pixels == 0 ==> |cs| >= 2)
  }

  lemma ChunkPrints(data: seq<octet>, offset: nat)
    requires offset + 12 <= |data|
    requires Size(Word(data[offset..offset + 4])) <= |data| - offset - 12
    ensures var c := ChunkAt(data, offset);
            data[offset..] == c.Print() + data[offset + |c.body| + 12..]
  {
    hide Word, WordBytes, Size, Crc, QualifiedHeader;
    var e := offset + 8 + |ChunkAt(data, offset).body|;
    BytesOfWord(data[offset..offset + 4]);
    BytesOfWord(data[e..e + 4]);
    FiveSlices(data, offset, e);
  }

  lemma FiveSlices(data: seq<octet>, o: nat, e: nat)
    requires o + 8 <= e && e + 4 <= |data|
    ensures data[o..] == data[o..o + 4] + data[o + 4..o + 8] + data[o + 8..e] + data[e..e + 4] + data[e + 4..]
  {}

  /** A printed chunk is read back, whatever follows it. */
  lemma PrintedChunkReads(data: seq<octet>, offset: nat, c: Chunk, rest: seq<octet>)
    requires offset <= |data| && c.Shaped() && data[offset..] == c.Print() + rest
    ensures offset + 12 <= |data| && Size(Word(data[offset..offset + 4])) <= |data| - offset - 12
    ensures ChunkAt(data, offset) == c
    ensures data[offset + |c.body| + 12..] == rest
  {
    hide Word, WordBytes, Size, Crc, QualifiedHeader;
    var s, n := data[offset..], |c.body|;
    assert |s| == 12 + n + |rest|;
    assert data[offset..offset + 4] == s[..4] == WordBytes(c.length);
    WordOfBytes(c.length);
    assert data[offset + 4..offset + 8] == s[4..8] == c.kind;
    assert data[offset + 8..offset + 8 + n] == s[8..8 + n] == c.body;
    assert data[offset + 8 + n..offset + 12 + n] == s[8 + n..12 + n] == WordBytes(c.crc);
    WordOfBytes(c.crc);
    assert data[offset + n + 12..] == s[n + 12..] == rest;
  }

  predicate Continues(c: Chunk, chunks: nat) {
    if chunks == 0 then GoodHeader(c) else GoodPixels(c)
  }

  function Seen(c: Chunk, chunks: nat, pixels: nat): nat {
    if chunks == 0 then pixels else pixels + |c.body|
  }

  lemma CheckContinues(data: seq<octet>, offset: nat, chunks: nat, pixels: nat)
    requires offset + 12 <= |data| && chunks < 128
    requires Size(Word(data[offset..offset + 4])) <= |data| - offset - 12
    requires Continues(ChunkAt(data, offset), chunks)
    ensures CheckFrom(data, offset, chunks, pixels)
         == CheckFrom(data, offset + |ChunkAt(data, offset).body| + 12, chunks + 1,
                      Seen(ChunkAt(data, offset), chunks, pixels))
  {
    hide Word, WordBytes, Size, Crc, QualifiedHeader, ChunkAt;
  }

  /** Acceptance from here on: either this chunk is the end, or it continues the file and the rest is accepted. */
  lemma AcceptedStep(data: seq<octet>, offset: nat, chunks: nat, pixels: nat)
    requires offset <= |data| && chunks <= 128
    requires CheckFrom(data, offset, chunks, pixels) == Accepted
    ensures offset + 12 <= |data| && chunks < 128
    ensures Size(Word(data[offset..offset + 4])) <= |data| - offset - 12
    ensures var c := ChunkAt(data, offset);
            var next := offset + |c.body| + 12;
            || (Continues(c, chunks) && CheckFrom(data, next, chunks + 1, Seen(c, chunks, pixels)) == Accepted)
            || (chunks > 0 && pixels > 0 && GoodEnd(c) && next == |data|)
  {
    hide Word, WordBytes, Size, Crc, QualifiedHeader, ChunkAt;
  }

  lemma TailCons(c: Chunk, rest: seq<Chunk>, chunks: nat, pixels: nat)
    requires Continues(c, chunks) && Tail(rest, chunks + 1, Seen(c, chunks, pixels))
    requires chunks == 0 ==> pixels == 0
    ensures Tail([c] + rest, chunks, pixels) && PrintAll([c] + rest) == c.Print() + PrintAll(rest)
  {
    hide Crc, QualifiedHeader, Chunk.Print;
    var cs := [c] + rest;
    assert cs[1..] == rest;
    assert forall i :: 0 < i < |cs| ==> cs[i] == rest[i - 1];
  }

  lemma {:induction false} AcceptedParses(data: seq<octet>, offset: nat, chunks: nat, pixels: nat)
    returns (cs: seq<Chunk>)
    requires offset <= |data| && chunks <= 128 && (chunks == 0 ==> pixels == 0)
    requires CheckFrom(data, offset, chunks, pixels) == Accepted
    ensures Tail(cs, chunks, pixels) && data[offset..] == PrintAll(cs)
    decreases |data| - offset
  {
    hide Word, WordBytes, Size, Crc, QualifiedHeader, CheckFrom, ChunkAt, Continues;
    AcceptedStep(data, offset, chunks, pixels);
    ChunkPrints(data, offset);
    var c := ChunkAt(data, offset);
    var next := offset + |c.body| + 12;
    if Continues(c, chunks) && CheckFrom(data, next, chunks + 1, Seen(c, chunks, pixels)) == Accepted {
      var rest := AcceptedParses(data, next, chunks + 1, Seen(c, chunks, pixels));
      TailCons(c, rest, chunks, pixels);
      cs := [c] + rest;
    } else {
      cs := [c];
      assert PrintAll(cs) == c.Print() + PrintAll([]);
    }
  }

  lemma TailStep(cs: seq<Chunk>, chunks: nat, pixels: nat)
    requires Tail(cs, chunks, pixels) && (chunks == 0 ==> pixels == 0)
    ensures cs[0].Shaped() && cs[0].Intact()
    ensures |cs| > 1 ==> Continues(cs[0], chunks) && Tail(cs[1..], chunks + 1, Seen(cs[0], chunks, pixels))
    ensures |cs| == 1 ==> chunks > 0 && pixels > 0 && GoodEnd(cs[0])
  {
    hide Crc, QualifiedHeader;
    var c := cs[0];
    assert c == cs[|cs| - 1] || GoodPixels(c) || GoodHeader(c);
  }

  lemma {:induction false} TailAccepted(data: seq<octet>, offset: nat, chunks: nat, pixels: nat, cs: seq<Chunk>)
    requires offset <= |data| && Tail(cs, chunks, pixels) && data[offset..] == PrintAll(cs)
    requires chunks == 0 ==> pixels == 0
    ensures CheckFrom(data, offset, chunks, pixels) == Accepted
    decreases |cs|
  {
    hide Word, WordBytes, Size, Crc, QualifiedHeader, ChunkAt, Continues, Chunk.Print;
    var c := cs[0];
    TailStep(cs, chunks, pixels);
    PrintedChunkReads(data, offset, c, PrintAll(cs[1..]));
    if |cs| > 1 {
      CheckContinues(data, offset, chunks, pixels);
      TailAccepted(data, offset + |c.body| + 12, chunks + 1, Seen(c, chunks, pixels), cs[1..]);
    }
  }

  lemma {:induction false} PrintedSize(cs: seq<Chunk>)
    requires forall c :: c in cs ==> |c.kind| == 4
    ensures |PrintAll(cs)| >= 12 * |cs|
    ensures |cs| > 0 ==> |PrintAll(cs)| >= 12 * |cs| + |cs[0].body|
    ensures |cs| > 1 ==> |PrintAll(cs)| >= 12 * |cs| + |cs[0].body| + |cs[1].body|
  {
    hide Word, WordBytes, Size, Crc, QualifiedHeader;
    if cs != [] {
      PrintedSize(cs[1..]);
    }
  }

  /** Every accepted file has at least 58 bytes; the 57 of the size test can never be enough. */
  lemma EnvelopeSize(cs: seq<Chunk>)
    requires Envelope(cs)
    ensures |SIGNATURE + PrintAll(cs)| >= 58
  {
    hide Word, WordBytes, Size, Crc, QualifiedHeader;
    forall c | c in cs ensures |c.kind| == 4 {
      var i :| 0 <= i < |cs| && cs[i] == c;
      assert i == 0 || i == |cs| - 1 || GoodPixels(cs[i]);
    }
    assert GoodPixels(cs[1]);
    PrintedSize(cs);
  }

  /** The checker accepts exactly the bounded printings of the grammar. */
  lemma AcceptedLanguage(data: seq<octet>)
    ensures Check(data) == Accepted <==> InLanguage(data)
  {
    hide Word, WordBytes, Size, Crc, QualifiedHeader;
    if Check(data) == Accepted {
      var cs := AcceptedParses(data, 8, 0, 0);
      assert data == data[..8] + data[8..];
      assert IsEnvelopeOf(cs, data);
    }
    if InLanguage(data) {
      var cs :| IsEnvelopeOf(cs, data);
      EnvelopeSize(cs);
      assert data[8..] == PrintAll(cs) && data[..8] == SIGNATURE;
      TailAccepted(data, 8, 0, 0, cs);
    }
  }

  lemma {:induction false} PrintAllLast(cs: seq<Chunk>)
    requires cs != []
    ensures PrintAll(cs) == PrintAll(cs[..|cs| - 1]) + cs[|cs| - 1].Print()
  {
    hide Chunk.Print;
    var n := |cs|;
    if n == 1 {
      assert PrintAll(cs) == cs[0].Print() + PrintAll(cs[1..]);
    } else {
      PrintAllLast(cs[1..]);
      assert cs[1..][..n - 2] == cs[..n - 1][1..];
    }
  }

  lemma EndPrints(c: Chunk)
    requires GoodEnd(c)
    ensures c.Print() == [0, 0, 0, 0, 0x49, 0x45, 0x4e, 0x44, 0xae, 0x42, 0x60, 0x82]
  {
    assert c.kind + c.body == IEND && c.length == 0;
    EndCrc();
    var w: bv32 := 0xae426082;
    assert w >> 24 == 0xae && (w >> 16) & 0xff == 0x42 && (w >> 8) & 0xff == 0x60 && w & 0xff == 0x82;
  }

  /** The last twelve bytes of every accepted file are the same fixed end chunk. */
  lemma AcceptedEnding(data: seq<octet>)
    requires Check(data) == Accepted
    ensures |data| >= 58
    ensures data[|data| - 12..] == [0, 0, 0, 0, 0x49, 0x45, 0x4e, 0x44, 0xae, 0x42, 0x60, 0x82]
  {
    hide Check, Crc, Chunk.Print, PrintAll;
    AcceptedLanguage(data);
    var cs :| IsEnvelopeOf(cs, data);
    EnvelopeSize(cs);
    PrintAllLast(cs);
    EndPrints(cs[|cs| - 1]);
  }

  /** Printing is a prefix code: a file has one decomposition only. */
  lemma {:induction false} DecompositionUnique(a: seq<Chunk>, b: seq<Chunk>)
    requires forall c :: c in a + b ==> c.Shaped()
    requires PrintAll(a) == PrintAll(b)
    ensures a == b
  {
    hide Word, WordBytes, Size, Crc, QualifiedHeader;
    if a != [] && b != [] {
      var s := PrintAll(a);
      assert a[0] in a + b && b[0] in a + b;
      PrintedChunkReads(s, 0, a[0], PrintAll(a[1..]));
      PrintedChunkReads(s, 0, b[0], PrintAll(b[1..]));
      DecompositionUnique(a[1..], b[1..]);
    }
  }

  // ---- Damage is detected ----

  function OffsetOf(cs: seq<Chunk>, k: nat): nat
    requires k <= |cs|
  {
    8 + |PrintAll(cs[..k])|
  }

  /** The files agree outside [from, to). */
  ghost predicate DifferWithin(data: seq<octet>, changed: seq<octet>, from: nat, to: nat) {
    && |changed| == |data| && from <= to <= |data|
    && data[..from] == changed[..from] && data[to..] == changed[to..]
    && data[from..to] != changed[from..to]
  }

  /** A change of at most four consecutive bytes of the type and body of the chunk, or any change of its CRC. */
  predicate Covered(offset: nat, c: Chunk, from: nat, to: nat) {
    || (offset + 4 <= from <= to <= offset + 8 + |c.body| && to - from <= 4)
    || (offset + 8 + |c.body| <= from <= to <= offset + 12 + |c.body|)
  }

  lemma SliceOfSlice(s: seq<octet>, from: nat, to: nat, i: nat, j: nat)
    requires from <= i <= j <= to <= |s|
    ensures s[from..to][i - from..j - from] == s[i..j]
  {
    var t := s[from..to];
    assert forall k :: i - from <= k < j - from ==> t[k] == s[from + k];
  }

  lemma SliceAgrees(data: seq<octet>, changed: seq<octet>, from: nat, to: nat, i: nat, j: nat)
    requires DifferWithin(data, changed, from, to) && i <= j <= |data| && (j <= from || to <= i)
    ensures data[i..j] == changed[i..j]
  {
    var n := |data|;
    var low, high := if j <= from then 0 else to, if j <= from then from else n;
    assert data[..from] == data[0..from] && changed[..from] == changed[0..from];
    assert data[to..] == data[to..n] && changed[to..] == changed[to..n];
    SliceOfSlice(data, low, high, i, j);
    SliceOfSlice(changed, low, high, i, j);
  }

  lemma DamagedBody(data: seq<octet>, changed: seq<octet>, from: nat, to: nat, begin: nat, end: nat)
    requires DifferWithin(data, changed, from, to) && begin <= from <= to <= end <= |data| && to - from <= 4
    ensures Crc(data[begin..end]) != Crc(changed[begin..end])
  {
    hide Crc;
    SliceAgrees(data, changed, from, to, begin, from);
    SliceAgrees(data, changed, from, to, to, end);
    assert data[begin..end] == data[begin..from] + data[from..to] + data[to..end];
    assert changed[begin..end] == data[begin..from] + changed[from..to] + data[to..end];
    CrcDetectsBurst(data[begin..from], data[from..to], changed[from..to], data[to..end]);
  }

  /** The CRC of a chunk is over one slice of the file. */
  lemma CoveredSlice(data: seq<octet>, offset: nat)
    requires offset + 12 <= |data|
    requires Size(Word(data[offset..offset + 4])) <= |data| - offset - 12
    ensures var c := ChunkAt(data, offset);
            var end := offset + 8 + |c.body|;
            c.kind + c.body == data[offset + 4..end] && c.crc == Word(data[end..end + 4])
  {
    hide Word, Size;
  }

  lemma DamagedChunk(data: seq<octet>, changed: seq<octet>, from: nat, to: nat, offset: nat)
    requires DifferWithin(data, changed, from, to)
    requires offset + 12 <= |data|
    requires Size(Word(data[offset..offset + 4])) <= |data| - offset - 12
    requires ChunkAt(data, offset).Intact() && Covered(offset, ChunkAt(data, offset), from, to)
    ensures data[offset..offset + 4] == changed[offset..offset + 4]
    ensures !ChunkAt(changed, offset).Intact()
  {
    hide Word, WordBytes, Size, Crc, ChunkAt;
    SliceAgrees(data, changed, from, to, offset, offset + 4);
    var end := offset + 8 + |ChunkAt(data, offset).body|;
    CoveredSlice(data, offset);
    CoveredSlice(changed, offset);
    if to <= end && offset + 4 <= from && to - from <= 4 {
      DamagedBody(data, changed, from, to, offset + 4, end);
      SliceAgrees(data, changed, from, to, end, end + 4);
    } else {
      SliceAgrees(data, changed, from, to, offset + 4, end);
      DamagedCrcField(data, changed, from, to, end);
    }
  }

  lemma DamagedCrcField(data: seq<octet>, changed: seq<octet>, from: nat, to: nat, p: nat)
    requires DifferWithin(data, changed, from, to) && p <= from <= to <= p + 4 <= |data|
    ensures Word(data[p..p + 4]) != Word(changed[p..p + 4])
  {
    hide Word;
    if Word(data[p..p + 4]) == Word(changed[p..p + 4]) {
      WordInjective(data[p..p + 4], changed[p..p + 4]);
      SliceOfSlice(data, p, p + 4, from, to);
      SliceOfSlice(changed, p, p + 4, from, to);
    }
  }

  lemma UndamagedChunk(data: seq<octet>, changed: seq<octet>, from: nat, to: nat, offset: nat)
    requires DifferWithin(data, changed, from, to)
    requires offset + 12 <= |data|
    requires Size(Word(data[offset..offset + 4])) <= |data| - offset - 12
    requires offset + |ChunkAt(data, offset).body| + 12 <= from
    ensures data[offset..offset + 4] == changed[offset..offset + 4]
    ensures ChunkAt(changed, offset) == ChunkAt(data, offset)
  {
    hide Word, WordBytes, Size;
    var n := Size(Word(data[offset..offset + 4]));
    SliceAgrees(data, changed, from, to, offset, offset + 4);
    SliceAgrees(data, changed, from, to, offset + 4, offset + 8);
    SliceAgrees(data, changed, from, to, offset + 8, offset + 8 + n);
    SliceAgrees(data, changed, from, to, offset + 8 + n, offset + 12 + n);
  }

  lemma {:induction false} DamageReached(data: seq<octet>, changed: seq<octet>, from: nat, to: nat,
                                         offset: nat, chunks: nat, pixels: nat, cs: seq<Chunk>, k: nat)
    requires DifferWithin(data, changed, from, to) && |changed| == |data|
    requires offset <= |data| && Tail(cs, chunks, pixels) && data[offset..] == PrintAll(cs)
    requires chunks == 0 ==> pixels == 0
    requires k < |cs| && Covered(offset + |PrintAll(cs[..k])|, cs[k], from, to)
    ensures CheckFrom(changed, offset, chunks, pixels) == BadCrc
    decreases |cs|
  {
    hide Word, WordBytes, Size, Crc, QualifiedHeader, ChunkAt, Continues, Chunk.Print, CheckFrom, DifferWithin,
      Covered, Chunk.Intact;
    var c := cs[0];
    TailStep(cs, chunks, pixels);
    PrintedChunkReads(data, offset, c, PrintAll(cs[1..]));
    if k == 0 {
      DamagedChunk(data, changed, from, to, offset);
      DamageStops(changed, offset, chunks, pixels);
    } else {
      PrintAllCons(cs, k);
      CoveredAfter(offset + |PrintAll(cs[..k])|, cs[k], from, to);
      UndamagedChunk(data, changed, from, to, offset);
      CheckContinues(changed, offset, chunks, pixels);
      var next := offset + |c.body| + 12;
      DamageReached(data, changed, from, to, next, chunks + 1, Seen(c, chunks, pixels), cs[1..], k - 1);
    }
  }

  lemma CoveredAfter(offset: nat, c: Chunk, from: nat, to: nat)
    requires Covered(offset, c, from, to)
    ensures offset <= from
  {}

  lemma PrintAllCons(cs: seq<Chunk>, k: nat)
    requires 0 < k < |cs|
    ensures PrintAll(cs[..k]) == cs[0].Print() + PrintAll(cs[1..][..k - 1])
  {
    hide Chunk.Print;
    assert cs[..k][1..] == cs[1..][..k - 1] && cs[..k][0] == cs[0];
  }

  lemma DamageStops(data: seq<octet>, offset: nat, chunks: nat, pixels: nat)
    requires offset + 12 <= |data| && chunks < 128
    requires Size(Word(data[offset..offset + 4])) <= |data| - offset - 12
    requires !ChunkAt(data, offset).Intact()
    ensures CheckFrom(data, offset, chunks, pixels) == BadCrc
  {
    hide Word, Size, Crc, ChunkAt;
  }

  /** Damage confined to four bytes of one type and body, or to one CRC, is reported as exactly that. */
  lemma DamageRejected(data: seq<octet>, changed: seq<octet>, from: nat, to: nat, cs: seq<Chunk>, k: nat)
    requires Check(data) == Accepted && IsEnvelopeOf(cs, data)
    requires DifferWithin(data, changed, from, to)
    requires k < |cs| && Covered(OffsetOf(cs, k), cs[k], from, to)
    ensures Check(changed) == BadCrc
  {
    hide Word, WordBytes, Size, Crc, QualifiedHeader;
    assert data[8..] == PrintAll(cs);
    SliceAgrees(data, changed, from, to, 0, 8);
    assert data[..8] == data[0..8] && changed[..8] == changed[0..8];
    DamageReached(data, changed, from, to, 8, 0, 0, cs, k);
  }

  predicate InLengthField(cs: seq<Chunk>, i: nat) {
    exists k :: 0 <= k < |cs| && OffsetOf(cs, k) <= i < OffsetOf(cs, k) + 4
  }

  lemma {:induction false} ChunkCovering(cs: seq<Chunk>, i: nat) returns (k: nat)
    requires forall c :: c in cs ==> c.Shaped()
    requires i < |PrintAll(cs)|
    ensures k < |cs| && |PrintAll(cs[..k])| <= i < |PrintAll(cs[..k])| + 12 + |cs[k].body|
  {
    hide Word, WordBytes, Size, Crc, QualifiedHeader;
    var c := cs[0];
    assert c.Shaped() && |c.Print()| == 12 + |c.body|;
    if i < |c.Print()| {
      k := 0;
    } else {
      var j := ChunkCovering(cs[1..], i - |cs[0].Print()|);
      k := j + 1;
      assert cs[..k][1..] == cs[1..][..j] && cs[..k][0] == c;
      assert PrintAll(cs[..k]) == c.Print() + PrintAll(cs[1..][..j]);
    }
  }

  lemma EnvelopeShaped(cs: seq<Chunk>)
    requires Envelope(cs)
    ensures forall c :: c in cs ==> c.Shaped()
  {
    hide Crc, Size, QualifiedHeader;
    forall c | c in cs ensures c.Shaped() {
      var j :| 0 <= j < |cs| && cs[j] == c;
      assert j == 0 || j == |cs| - 1 || GoodPixels(cs[j]);
    }
  }

  /** An accepted file with one byte changed outside the length fields is never accepted. */
  lemma SingleByteRejected(data: seq<octet>, cs: seq<Chunk>, i: nat, b: octet)
    requires Check(data) == Accepted && IsEnvelopeOf(cs, data)
    requires i < |data| && data[i] != b && !InLengthField(cs, i)
    ensures Check(data[i := b]) == if i < 8 then BadSignature else BadCrc
  {
    hide CheckFrom, Envelope, PrintAll;
    var changed := data[i := b];
    if i < 8 {
      assert data[..8][i] != changed[..8][i];
    } else {
      EnvelopeShaped(cs);
      var k := ChunkCovering(cs, i - 8);
      assert OffsetOf(cs, k) <= i < OffsetOf(cs, k) + 12 + |cs[k].body|;
      assert i >= OffsetOf(cs, k) + 4;
      assert data[i..i + 1][0] != changed[i..i + 1][0];
      DamageRejected(data, changed, i, i + 1, cs, k);
    }
  }
}
