/** The fixed header of a native checkpoint (src/bridge/native_checkpoint.cpp): written by index, read by index. */
module CheckpointHeader {
  import opened Basics
  import opened Words
  import opened AwardCheckpoint

  const MAGIC: word := 0x39435053
  const GRANTS := 2048
  const SIZE := 36 + GRANTS * 2

  datatype Actor = Actor(
    nativeId: word, herdNativeId: word, speciesInstance: word, speciesType: word, speciesGroup: word, archetype: word)

  type Grants = g: seq<(word, word)> | |g| == GRANTS witness NoGrants(GRANTS)

  function NoGrants(n: nat): (g: seq<(word, word)>)
    ensures |g| == n
  {
    if n == 0 then [] else NoGrants(n - 1) + [(0, 0)]
  }

  /** What a header holds. The epoch of the capture is not part of it. */
  datatype Contents = Contents(
    schema: word, player: word, first: Actor, second: Actor, awards: Checkpoint, grants: Grants)

  function ActorWords(a: Actor): (s: seq<word>)
    ensures |s| == 6
  {
    [a.nativeId, a.herdNativeId, a.speciesInstance, a.speciesType, a.speciesGroup, a.archetype]
  }

  function GrantWords(g: seq<(word, word)>): (s: seq<word>)
    ensures |s| == 2 * |g|
    ensures forall i :: 0 <= i < |g| ==> s[2 * i] == g[i].0 && s[2 * i + 1] == g[i].1
  {
    if g == [] then [] else GrantWords(g[..|g| - 1]) + [g[|g| - 1].0, g[|g| - 1].1]
  }

  /** The regions follow one another without gap or overlap. */
  function Header(c: Contents): (h: seq<word>)
    ensures |h| == SIZE
  {
    [MAGIC, c.schema, SIZE, c.player] + ActorWords(c.first) + ActorWords(c.second) + c.awards + GrantWords(c.grants)
  }

  method PutActor(h: array<word>, n: nat, a: Actor)
    requires n + 6 <= h.Length
    modifies h
    ensures h[..] == old(h[..n]) + ActorWords(a) + old(h[n + 6..])
  {
    h[n], h[n + 1], h[n + 2] := a.nativeId, a.herdNativeId, a.speciesInstance;
    h[n + 3], h[n + 4], h[n + 5] := a.speciesType, a.speciesGroup, a.archetype;
  }

  method PutAwards(h: array<word>, awards: Checkpoint)
    requires h.Length == SIZE
    modifies h
    ensures h[..] == old(h[..16]) + awards + old(h[36..])
  {
    for i := 0 to 20
      invariant h[..] == old(h[..16]) + awards[..i] + old(h[16 + i..])
    {
      h[16 + i] := awards[i];
      assert h[16 + i + 1..] == old(h[16 + i + 1..]);
    }
  }

  method PutGrants(h: array<word>, grants: Grants)
    requires h.Length == SIZE
    modifies h
    ensures h[..] == old(h[..36]) + GrantWords(grants)
  {
    for i := 0 to GRANTS
      invariant h[..36] == old(h[..36])
      invariant forall k :: 0 <= k < i ==> h[36 + 2 * k] == grants[k].0 && h[37 + 2 * k] == grants[k].1
    {
      h[36 + i * 2] := grants[i].0;
      h[37 + i * 2] := grants[i].1;
    }
    ghost var g := GrantWords(grants);
    forall j | 0 <= j < |g| ensures h[36 + j] == g[j] {
      var k := j / 2;
      assert j == 2 * k || j == 2 * k + 1;
      assert g[2 * k] == grants[k].0 && g[2 * k + 1] == grants[k].1;
    }
    assert h[36..] == g;
  }

  method WriteHeader(c: Contents) returns (h: array<word>)
    ensures fresh(h) && h[..] == Header(c)
  {
    h := new word[SIZE](_ => 0);
    h[0], h[1], h[2], h[3] := MAGIC, c.schema, SIZE, c.player;
    assert h[..4] == [MAGIC, c.schema, SIZE, c.player];
    PutActor(h, 4, c.first);
    PutActor(h, 10, c.second);
    PutAwards(h, c.awards);
    PutGrants(h, c.grants);
  }

  function ActorAt(h: seq<word>, n: nat): Actor
    requires n + 6 <= |h|
  {
    Actor(h[n], h[n + 1], h[n + 2], h[n + 3], h[n + 4], h[n + 5])
  }

  /** Reads a header that the stream held completely; None when it is refused. */
  method ReadHeader(h: seq<word>) returns (c: Option<Contents>)
    requires |h| == SIZE
    ensures c.Some? ==> h == Header(c.value) && (c.value.schema == 3 || c.value.schema == 4) && Valid(c.value.awards)
    ensures c.None? ==> !exists d: Contents :: h == Header(d) && (d.schema == 3 || d.schema == 4) && Valid(d.awards)
  {
    if h[0] != MAGIC || (h[1] != 3 && h[1] != 4) || h[2] != SIZE {
      forall d: Contents | h == Header(d) && (d.schema == 3 || d.schema == 4) ensures false {
        HeaderParts(d);
      }
      return None;
    }
    var first, second := ActorAt(h, 4), ActorAt(h, 10);
    var awards: seq<word> := [];
    for i := 0 to 20
      invariant awards == h[16..16 + i]
    {
      awards := awards + [h[16 + i]];
    }
    var grants: seq<(word, word)> := [];
    for i := 0 to GRANTS
      invariant |grants| == i
      invariant forall k :: 0 <= k < i ==> grants[k] == (h[36 + k * 2], h[37 + k * 2])
    {
      grants := grants + [(h[36 + i * 2], h[37 + i * 2])];
    }
    var found := Contents(h[1], h[3], first, second, awards, grants);
    Rebuilt(h, found);
    if !Valid(awards) {
      forall d: Contents | h == Header(d) && Valid(d.awards) ensures false {
        HeaderParts(d);
      }
      return None;
    }
    return Some(found);
  }

  lemma HeaderParts(c: Contents)
    ensures var h := Header(c);
            && h[0] == MAGIC && h[1] == c.schema && h[2] == SIZE && h[3] == c.player
            && ActorAt(h, 4) == c.first && ActorAt(h, 10) == c.second && h[16..36] == c.awards
            && h[36..] == GrantWords(c.grants)
  {
    hide GrantWords;
  }

  lemma Rebuilt(h: seq<word>, c: Contents)
    requires |h| == SIZE && h[0] == MAGIC && h[1] == c.schema && h[2] == SIZE && h[3] == c.player
    requires ActorAt(h, 4) == c.first && ActorAt(h, 10) == c.second && h[16..36] == c.awards
    requires forall k :: 0 <= k < GRANTS ==> c.grants[k] == (h[36 + k * 2], h[37 + k * 2])
    ensures h == Header(c)
  {
    var g := GrantWords(c.grants);
    forall j | 0 <= j < |g| ensures h[36 + j] == g[j] {
      var k := j / 2;
      assert j == 2 * k || j == 2 * k + 1;
      assert g[2 * k] == c.grants[k].0 && g[2 * k + 1] == c.grants[k].1;
    }
    assert h[36..] == g;
    hide GrantWords;
    assert h[..4] == [MAGIC, c.schema, SIZE, c.player];
    assert h[4..10] == ActorWords(c.first);
    assert h[10..16] == ActorWords(c.second);
    assert h == h[..4] + h[4..10] + h[10..16] + h[16..36] + h[36..];
  }

  lemma {:induction false} GrantsInjective(a: seq<(word, word)>, b: seq<(word, word)>)
    requires GrantWords(a) == GrantWords(b)
    ensures a == b
  {
    assert |a| == |b|;
    forall i | 0 <= i < |a| ensures a[i] == b[i] {
      assert GrantWords(a)[2 * i] == a[i].0 && GrantWords(b)[2 * i] == b[i].0;
      assert GrantWords(a)[2 * i + 1] == a[i].1 && GrantWords(b)[2 * i + 1] == b[i].1;
    }
  }

  /** A header says one thing only: what was written is all that can be read from it. */
  lemma HeaderInjective(c: Contents, d: Contents)
    requires Header(c) == Header(d)
    ensures c == d
  {
    HeaderParts(c);
    HeaderParts(d);
    GrantsInjective(c.grants, d.grants);
  }
}
