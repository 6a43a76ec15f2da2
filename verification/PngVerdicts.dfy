/**
  Which file gets which verdict of the container checker, over its chunks: the good chunks it begins with, and what
  comes after them.
*/
module PngVerdicts {
  import opened Crc32
  import opened PngEnvelope

  /** A qualified header followed by nonempty pixel chunks, or nothing yet. */
  predicate GoodPrefix(pre: seq<Chunk>) {
    && |pre| <= 128 && (pre != [] ==> GoodHeader(pre[0]))
    && forall i :: 0 < i < |pre| ==> GoodPixels(pre[i])
  }

  /** These bytes are a chunk and what follows it. */
  predicate Begins(rest: seq<octet>, c: Chunk, after: seq<octet>) {
    c.Shaped() && rest == c.Print() + after
  }

  /** The bytes begin with a whole chunk: its length field fits what is there. */
  predicate HasChunk(rest: seq<octet>) {
    |rest| >= 12 && Size(Word(rest[..4])) <= |rest| - 12
  }

  lemma GoodContinues(pre: seq<Chunk>, i: nat)
    requires GoodPrefix(pre) && i < |pre|
    ensures Continues(pre[i], i) && pre[i].Shaped()
  {
    hide Crc, Size, QualifiedHeader;
  }

  lemma {:induction false} PixelsSeen(pre: seq<Chunk>, n: nat) returns (pixels: nat)
    requires GoodPrefix(pre) && n <= |pre|
    ensures pixels > 0 <==> n >= 2
    ensures pixels == PixelCount(pre[..n])
  {
    hide Crc, Size, QualifiedHeader;
    pixels := PixelCount(pre[..n]);
    if n > 0 {
      var before := PixelsSeen(pre, n - 1);
      assert pre[..n][..n - 1] == pre[..n - 1];
      assert n > 1 ==> GoodPixels(pre[n - 1]);
    }
  }

  /** The pixel bytes of a prefix: those of all chunks but the header. */
  function PixelCount(pre: seq<Chunk>): nat {
    if |pre| <= 1 then 0 else PixelCount(pre[..|pre| - 1]) + |pre[|pre| - 1].body|
  }

  /** The checker reads over a good prefix. */
  lemma {:induction false} ReadsPrefix(data: seq<octet>, pre: seq<Chunk>, rest: seq<octet>, n: nat)
    requires GoodPrefix(pre) && n <= |pre| && data == SIGNATURE + PrintAll(pre) + rest
    ensures var offset := 8 + |PrintAll(pre[..n])|;
            && offset <= |data| && data[offset..] == PrintAll(pre[n..]) + rest
            && CheckFrom(data, 8, 0, 0) == CheckFrom(data, offset, n, PixelCount(pre[..n]))
  {
    hide Word, WordBytes, Size, Crc, QualifiedHeader, CheckFrom, ChunkAt, Continues, Chunk.Print, GoodPrefix, Seen,
      PrintAll, PixelCount;
    if n == 0 {
      NothingPrints();
      assert pre[..0] == [] && pre[0..] == pre;
      assert data[8..] == PrintAll(pre) + rest;
    } else {
      ReadsPrefix(data, pre, rest, n - 1);
      GoodContinues(pre, n - 1);
      PrintAllCut(pre, n - 1);
      AtMost(pre);
      CountStep(pre, n);
      var offset, more := 8 + |PrintAll(pre[..n - 1])|, PrintAll(pre[n..]) + rest;
      assert data[offset..] == pre[n - 1].Print() + more;
      ReadOne(data, offset, pre[n - 1], more, n - 1, PixelCount(pre[..n - 1]));
    }
  }

  lemma ReadOne(data: seq<octet>, offset: nat, c: Chunk, more: seq<octet>, n: nat, pixels: nat)
    requires offset <= |data| && c.Shaped() && data[offset..] == c.Print() + more && Continues(c, n) && n < 128
    ensures var next := offset + |c.body| + 12;
            && next <= |data| && data[next..] == more
            && CheckFrom(data, offset, n, pixels) == CheckFrom(data, next, n + 1, Seen(c, n, pixels))
  {
    hide Word, Size, Crc, QualifiedHeader, CheckFrom, ChunkAt, Continues, Chunk.Print, Seen;
    PrintedChunkReads(data, offset, c, more);
    CheckContinues(data, offset, n, pixels);
  }

  lemma CountStep(pre: seq<Chunk>, n: nat)
    requires 0 < n <= |pre|
    ensures PixelCount(pre[..n]) == Seen(pre[n - 1], n - 1, PixelCount(pre[..n - 1]))
  {
    assert pre[..n][..n - 1] == pre[..n - 1];
  }

  lemma AtMost(pre: seq<Chunk>)
    requires GoodPrefix(pre)
    ensures |pre| <= 128
  {}

  lemma PrintAllCut(cs: seq<Chunk>, n: nat)
    requires n < |cs| && cs[n].Shaped()
    ensures PrintAll(cs[n..]) == cs[n].Print() + PrintAll(cs[n + 1..])
    ensures |PrintAll(cs[..n + 1])| == |PrintAll(cs[..n])| + 12 + |cs[n].body|
  {
    hide Chunk.Print, Size;
    assert cs[n..][1..] == cs[n + 1..];
    PrintAllLast(cs[..n + 1]);
    assert cs[..n + 1][..n] == cs[..n];
  }

  /** After a good prefix nothing but the rest decides. */
  lemma AfterPrefix(data: seq<octet>, pre: seq<Chunk>, rest: seq<octet>) returns (offset: nat, pixels: nat)
    requires 57 <= |data| <= MAX_BYTES && GoodPrefix(pre) && data == SIGNATURE + PrintAll(pre) + rest
    ensures offset <= |data| && data[offset..] == rest && (pixels > 0 <==> |pre| >= 2)
    ensures Check(data) == CheckFrom(data, offset, |pre|, pixels)
  {
    hide CheckFrom, PrintAll, GoodPrefix;
    ReadsPrefix(data, pre, rest, |pre|);
    pixels := PixelsSeen(pre, |pre|);
    offset := 8 + |PrintAll(pre)|;
    assert pre[..|pre|] == pre && pre[|pre|..] == [];
    NothingPrints();
    assert [] + rest == rest;
    assert data[..8] == SIGNATURE;
  }

  lemma NothingPrints()
    ensures PrintAll([]) == [] && PixelCount([]) == 0
  {}

  /** A file is refused for its size or its signature before anything else. */
  lemma OuterVerdicts(data: seq<octet>)
    ensures Check(data) == SizeLimit <==> |data| < 57 || |data| > MAX_BYTES
    ensures Check(data) == BadSignature <==> 57 <= |data| <= MAX_BYTES && data[..8] != SIGNATURE
  {
    if 57 <= |data| <= MAX_BYTES {
      InnerVerdict(data, 8, 0, 0);
    }
  }

  lemma {:induction false} InnerVerdict(data: seq<octet>, offset: nat, chunks: nat, pixels: nat)
    requires offset <= |data|
    ensures CheckFrom(data, offset, chunks, pixels) != SizeLimit
    ensures CheckFrom(data, offset, chunks, pixels) != BadSignature
    decreases |data| - offset
  {
    hide Word, Size, Crc, QualifiedHeader, ChunkAt;
    if offset + 12 <= |data| && Size(Word(data[offset..offset + 4])) <= |data| - offset - 12 {
      var c := ChunkAt(data, offset);
      InnerVerdict(data, offset + |c.body| + 12, chunks + 1, if chunks == 0 then pixels else pixels + |c.body|);
      InnerVerdict(data, offset + |c.body| + 12, 1, pixels);
    }
  }

  /** A file that ends after its good chunks has no end; one that goes on without a whole chunk is out of bounds. */
  lemma UnfinishedVerdicts(data: seq<octet>, pre: seq<Chunk>, rest: seq<octet>)
    requires 57 <= |data| <= MAX_BYTES && GoodPrefix(pre) && data == SIGNATURE + PrintAll(pre) + rest
    ensures rest == [] ==> Check(data) == MissingEnd
    ensures rest != [] && (|pre| == 128 || !HasChunk(rest)) ==> Check(data) == ChunkBounds
  {
    var offset, pixels := AfterPrefix(data, pre, rest);
    hide Check, PrintAll, CheckFrom, HasChunk;
    Unfinished(data, offset, |pre|, pixels, rest);
  }

  lemma Unfinished(data: seq<octet>, offset: nat, chunks: nat, pixels: nat, rest: seq<octet>)
    requires offset <= |data| && data[offset..] == rest
    ensures rest == [] ==> CheckFrom(data, offset, chunks, pixels) == MissingEnd
    ensures rest != [] && (chunks == 128 || !HasChunk(rest)) ==> CheckFrom(data, offset, chunks, pixels) == ChunkBounds
  {
    hide Word, Size, Crc, QualifiedHeader, ChunkAt;
    if |rest| >= 12 {
      assert data[offset..offset + 4] == rest[..4];
    }
  }

  lemma ChunkReached(data: seq<octet>, pre: seq<Chunk>, rest: seq<octet>, c: Chunk, after: seq<octet>)
    returns (offset: nat, pixels: nat)
    requires 57 <= |data| <= MAX_BYTES && GoodPrefix(pre) && data == SIGNATURE + PrintAll(pre) + rest
    requires Begins(rest, c, after)
    ensures offset + 12 <= |data| && Size(Word(data[offset..offset + 4])) <= |data| - offset - 12
    ensures ChunkAt(data, offset) == c && (pixels > 0 <==> |pre| >= 2)
    ensures offset + |c.body| + 12 == |data| <==> after == []
    ensures Check(data) == CheckFrom(data, offset, |pre|, pixels)
  {
    offset, pixels := AfterPrefix(data, pre, rest);
    hide Word, Size, Crc, QualifiedHeader, ChunkAt, PrintAll, Chunk.Print, CheckFrom, Check;
    PrintedChunkReads(data, offset, c, after);
  }

  /** A damaged chunk after the good ones is reported as that, wherever it stands and whatever it is. */
  lemma DamagedVerdict(data: seq<octet>, pre: seq<Chunk>, rest: seq<octet>, c: Chunk, after: seq<octet>)
    requires 57 <= |data| <= MAX_BYTES && GoodPrefix(pre) && data == SIGNATURE + PrintAll(pre) + rest
    requires Begins(rest, c, after) && |pre| < 128 && !c.Intact()
    ensures Check(data) == BadCrc
  {
    var offset, pixels := ChunkReached(data, pre, rest, c, after);
    hide Word, Size, Crc, QualifiedHeader, ChunkAt, PrintAll, Check;
  }

  /** An intact first chunk is no header by its type or its length, or its format is not qualified. */
  lemma HeaderVerdicts(data: seq<octet>, rest: seq<octet>, c: Chunk, after: seq<octet>)
    requires 57 <= |data| <= MAX_BYTES && data == SIGNATURE + rest && Begins(rest, c, after) && c.Intact()
    ensures c.kind != IHDR || |c.body| != 13 ==> Check(data) == BadHeader
    ensures c.kind == IHDR && |c.body| == 13 && !QualifiedHeader(c.body) ==> Check(data) == FormatUnqualified
  {
    NothingPrints();
    assert data == SIGNATURE + PrintAll([]) + rest;
    var offset, pixels := ChunkReached(data, [], rest, c, after);
    hide Word, Size, Crc, QualifiedHeader, ChunkAt, PrintAll, Check;
  }

  /** An intact chunk after the header: empty pixels, an end that is not the end of the file, or another type. */
  lemma LaterVerdicts(data: seq<octet>, pre: seq<Chunk>, rest: seq<octet>, c: Chunk, after: seq<octet>)
    requires 57 <= |data| <= MAX_BYTES && GoodPrefix(pre) && data == SIGNATURE + PrintAll(pre) + rest
    requires Begins(rest, c, after) && 1 <= |pre| < 128 && c.Intact()
    ensures c.kind == IDAT && c.body == [] ==> Check(data) == EmptyPixels
    ensures c.kind == IEND && (c.body != [] || |pre| == 1 || after != []) ==> Check(data) == EndOrTrailingBytes
    ensures c.kind == IEND && c.body == [] && |pre| >= 2 && after == [] ==> Check(data) == Accepted
    ensures c.kind != IDAT && c.kind != IEND ==> Check(data) == ChunkUnqualified
  {
    var offset, pixels := ChunkReached(data, pre, rest, c, after);
    hide Word, Size, Crc, QualifiedHeader, ChunkAt, PrintAll, Check;
  }

  /** Nothing more of the file continues its good chunks. */
  ghost predicate Complete(pre: seq<Chunk>, rest: seq<octet>) {
    || rest == [] || |pre| == 128 || !HasChunk(rest)
    || exists c, after :: Begins(rest, c, after) && !GoodPrefix(pre + [c])
  }

  /** Every file with the signature is good chunks and a rest that stops the checker, so the lemmas above cover it. */
  lemma {:induction false} Decomposes(data: seq<octet>, pre: seq<Chunk>, rest: seq<octet>)
    returns (all: seq<Chunk>, stop: seq<octet>)
    requires GoodPrefix(pre) && data == SIGNATURE + PrintAll(pre) + rest
    ensures GoodPrefix(all) && data == SIGNATURE + PrintAll(all) + stop && Complete(all, stop)
    decreases |rest|
  {
    hide Word, WordBytes, Size, Crc, QualifiedHeader, ChunkAt, Chunk.Print, PrintAll;
    if rest == [] || |pre| == 128 || !HasChunk(rest) {
      all, stop := pre, rest;
    } else {
      assert rest[0..0 + 4] == rest[..4];
      ChunkPrints(rest, 0);
      var c := ChunkAt(rest, 0);
      var after := rest[0 + |c.body| + 12..];
      assert rest[0..] == rest;
      assert Begins(rest, c, after);
      if GoodPrefix(pre + [c]) {
        PrintAllLast(pre + [c]);
        assert (pre + [c])[..|pre|] == pre;
        all, stop := Decomposes(data, pre + [c], after);
      } else {
        all, stop := pre, rest;
      }
    }
  }
}
