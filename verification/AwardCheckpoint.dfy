/** The twenty words of a saved second-player stage (src/bridge/native_award_context.cpp). */
module AwardCheckpoint {
  import opened Words

  datatype Vector = Vector(x: word, y: word, z: word)

  datatype Flags = Flags(c: bool, d: bool, e: bool, f: bool)

  datatype Stage = Stage(
    brainLevel: int32, scale: word, flaps: int32, flags: Flags, field10: bool, field11: bool, field14: int32,
    field18: Vector, abilityMode: int32, points: word, deprecatedAbilities: word64, learned: (int32, int32, int32),
    glideStart: Vector)

  type Checkpoint = w: seq<word> | |w| == 20 witness [0, 0, 0, 0, 0, 0, 0, 0, 0, 0, 0, 0, 0, 0, 0, 0, 0, 0, 0, 0]

  predicate Bit(w: word, n: nat)
    requires n > 0
  {
    w / n % 2 == 1
  }

  function Mark(b: bool, n: nat): nat {
    if b then n else 0
  }

  function StageOf(w: Checkpoint): Stage {
    var high: nat := w[13];
    var abilities: nat := w[12] + high * 0x1_0000_0000;
    Stage(Signed(w[0]), w[1], Signed(w[2]), Flags(Bit(w[3], 1), Bit(w[3], 2), Bit(w[3], 4), Bit(w[3], 8)),
          Bit(w[4], 1), Bit(w[4], 2), Signed(w[5]), Vector(w[6], w[7], w[8]), Signed(w[9]), w[10], abilities,
          (Signed(w[14]), Signed(w[15]), Signed(w[16])), Vector(w[17], w[18], w[19]))
  }

  function WordsOf(s: Stage, worldPending: bool): Checkpoint {
    [Unsigned(s.brainLevel), s.scale, Unsigned(s.flaps),
     Mark(s.flags.c, 1) + Mark(s.flags.d, 2) + Mark(s.flags.e, 4) + Mark(s.flags.f, 8),
     Mark(s.field10, 1) + Mark(s.field11, 2), Unsigned(s.field14), s.field18.x, s.field18.y, s.field18.z,
     Unsigned(s.abilityMode), s.points, Mark(worldPending, 1),
     s.deprecatedAbilities % 0x1_0000_0000, s.deprecatedAbilities / 0x1_0000_0000,
     Unsigned(s.learned.0), Unsigned(s.learned.1), Unsigned(s.learned.2),
     s.glideStart.x, s.glideStart.y, s.glideStart.z]
  }

  predicate Valid(w: Checkpoint) {
    && w[0] <= 3 && w[2] <= 1000 && w[3] <= 15 && w[4] <= 3 && w[9] <= 1 && w[11] <= 1
    && Finite(w[1]) && Finite(w[6]) && Finite(w[7]) && Finite(w[8]) && Finite(w[10])
    && Finite(w[17]) && Finite(w[18]) && Finite(w[19])
    && Positive(w[1]) && NonNegative(w[10])
  }

  /** The same condition on a stage. */
  predicate InRange(s: Stage) {
    && 0 <= s.brainLevel <= 3 && 0 <= s.flaps <= 1000 && 0 <= s.abilityMode <= 1
    && Finite(s.field18.x) && Finite(s.field18.y) && Finite(s.field18.z)
    && Finite(s.glideStart.x) && Finite(s.glideStart.y) && Finite(s.glideStart.z)
    && Positive(s.scale) && NonNegative(s.points)
  }

  lemma StageRoundTrip(s: Stage, worldPending: bool)
    ensures StageOf(WordsOf(s, worldPending)) == s
    ensures WordsOf(s, worldPending)[11] == 1 <==> worldPending
  {
    FlagsRoundTrip(s.flags);
  }

  lemma FlagsRoundTrip(f: Flags)
    ensures var w := Mark(f.c, 1) + Mark(f.d, 2) + Mark(f.e, 4) + Mark(f.f, 8);
            Flags(Bit(w, 1), Bit(w, 2), Bit(w, 4), Bit(w, 8)) == f
  {}

  lemma FourBits(w: word)
    ensures w == Mark(Bit(w, 1), 1) + Mark(Bit(w, 2), 2) + Mark(Bit(w, 4), 4) + Mark(Bit(w, 8), 8) <==> w <= 15
    ensures w == Mark(Bit(w, 1), 1) + Mark(Bit(w, 2), 2) <==> w <= 3
  {
    var a, b, c := w / 2, w / 4, w / 8;
    assert w == 2 * a + w % 2 && a == 2 * b + a % 2 && b == 2 * c + b % 2;
  }

  lemma TwoWords(low: word, high: word)
    ensures var x: nat := low + high * 0x1_0000_0000;
            x < 0x1_0000_0000_0000_0000 && x % 0x1_0000_0000 == low && x / 0x1_0000_0000 == high
  {}

  /** Restoring a checkpoint and taking one again gives the same words exactly when the packed words are in range. */
  lemma WordsRoundTrip(w: Checkpoint)
    ensures WordsOf(StageOf(w), w[11] != 0) == w <==> w[3] <= 15 && w[4] <= 3 && w[11] <= 1
  {
    FourBits(w[3]);
    FourBits(w[4]);
    TwoWords(w[12], w[13]);
    hide Bit;
    var v := WordsOf(StageOf(w), w[11] != 0);
    assert v[12] == w[12] && v[13] == w[13];
    assert v[3] == w[3] <==> w[3] <= 15;
    assert v[4] == w[4] <==> w[4] <= 3;
    assert v[11] == w[11] <==> w[11] <= 1;
    assert forall i :: 0 <= i < 20 && i != 3 && i != 4 && i != 11 ==> v[i] == w[i];
  }

  /** A snapshot is a valid checkpoint exactly for a stage in range. */
  lemma ValidMeansInRange(s: Stage, worldPending: bool)
    ensures Valid(WordsOf(s, worldPending)) <==> InRange(s)
  {
    hide Finite, Positive, NonNegative;
    PositiveFinite(s.scale);
    PositiveFinite(s.points);
  }

  lemma PositiveFinite(w: word)
    ensures (Positive(w) ==> Finite(w)) && (NonNegative(w) ==> Finite(w))
  {}

  /** Valid checkpoints and stages in range with a pending flag correspond one to one. */
  lemma Bijection(w: Checkpoint, s: Stage, worldPending: bool)
    ensures Valid(w) && s == StageOf(w) && worldPending == (w[11] != 0) <==> InRange(s) && w == WordsOf(s, worldPending)
  {
    hide Finite, Positive, NonNegative, StageOf, WordsOf, InRange;
    ValidMeansInRange(s, worldPending);
    ValidMeansInRange(StageOf(w), w[11] != 0);
    WordsRoundTrip(w);
    StageRoundTrip(s, worldPending);
    PendingWord(s, worldPending);
  }

  lemma PendingWord(s: Stage, worldPending: bool)
    ensures WordsOf(s, worldPending)[11] == if worldPending then 1 else 0
  {}
}
