/**
  Arbitrary memory and circular doubly linked lists in it. Memory is a partial map from address to byte; words are
  little-endian and may overlap; a range is readable when every byte of it is there.
*/
module LinkedRing {
  import opened Words

  type Memory = m: map<nat, byte> | forall a :: a in m ==> a < 0x1_0000_0000 witness map[]

  predicate Readable(m: Memory, a: nat, n: nat) {
    a != 0 && forall k :: a <= k < a + n ==> k in m
  }

  function Word(m: Memory, a: nat): (w: nat)
    requires Readable(m, a, 4)
    ensures w < 0x1_0000_0000
  {
    var b0: nat, b1: nat, b2: nat, b3: nat := m[a], m[a + 1], m[a + 2], m[a + 3];
    b0 + 256 * b1 + 65536 * b2 + 16777216 * b3
  }

  function Bytes(m: Memory, a: nat, n: nat): (s: seq<byte>)
    requires n == 0 || Readable(m, a, n)
    ensures |s| == n
  {
    if n == 0 then [] else Bytes(m, a, n - 1) + [m[a + n - 1]]
  }

  predicate AllReadable(m: Memory, links: seq<nat>) {
    forall i :: 0 <= i < |links| ==> Readable(m, links[i], 8)
  }

  /** The two words of a list node, or of the sentinel: next, then previous. */
  function Forward(m: Memory, link: nat): nat
    requires Readable(m, link, 8)
  {
    Word(m, link)
  }

  function Back(m: Memory, link: nat): nat
    requires Readable(m, link, 8)
  {
    Word(m, link + 4)
  }

  /** The next pointer and the last node once these links have been visited. */
  function Tip(m: Memory, sentinel: nat, links: seq<nat>): nat
    requires Readable(m, sentinel, 8) && AllReadable(m, links)
  {
    if links == [] then Forward(m, sentinel) else Forward(m, links[|links| - 1])
  }

  function Last(sentinel: nat, links: seq<nat>): nat {
    if links == [] then sentinel else links[|links| - 1]
  }

  /** Node i was reached from the one before it, is not the sentinel, and points back to the one before it. */
  predicate Linked(m: Memory, sentinel: nat, links: seq<nat>, i: nat)
    requires Readable(m, sentinel, 8) && AllReadable(m, links) && i < |links|
  {
    && links[i] != sentinel
    && links[i] == (if i == 0 then Forward(m, sentinel) else Forward(m, links[i - 1]))
    && Back(m, links[i]) == (if i == 0 then sentinel else links[i - 1])
  }

  /** A walk from the sentinel. */
  predicate Path(m: Memory, sentinel: nat, links: seq<nat>) {
    && Readable(m, sentinel, 8) && AllReadable(m, links)
    && forall i :: 0 <= i < |links| ==> Linked(m, sentinel, links, i)
  }

  /** A consistent circular doubly linked list with exactly these nodes. */
  predicate Ring(m: Memory, sentinel: nat, links: seq<nat>) {
    && Path(m, sentinel, links)
    && Tip(m, sentinel, links) == sentinel
    && Back(m, sentinel) == Last(sentinel, links)
  }

  lemma PathGrows(m: Memory, sentinel: nat, links: seq<nat>, link: nat)
    requires Path(m, sentinel, links) && Readable(m, link, 8)
    requires link == Tip(m, sentinel, links) && link != sentinel && Back(m, link) == Last(sentinel, links)
    ensures Path(m, sentinel, links + [link])
  {
    hide Forward, Back, Readable;
    var longer := links + [link];
    assert AllReadable(m, longer);
    forall i | 0 <= i < |longer| ensures Linked(m, sentinel, longer, i) {
      assert i < |links| ==> Linked(m, sentinel, links, i);
    }
  }

  /** No node is visited twice, by the back links alone: no table of visited nodes and no bound is involved. */
  lemma {:induction false} BackLinksPreventRevisit(m: Memory, sentinel: nat, links: seq<nat>, i: nat, j: nat)
    requires Path(m, sentinel, links) && i < j < |links|
    ensures links[i] != links[j]
    decreases i
  {
    hide Forward, Back, Readable;
    assert Linked(m, sentinel, links, i) && Linked(m, sentinel, links, j) && Linked(m, sentinel, links, j - 1);
    if i > 0 {
      BackLinksPreventRevisit(m, sentinel, links, i - 1, j - 1);
    }
  }

  /** Memory determines the walk: two walks agree as far as both go. */
  lemma {:induction false} WalkDetermined(m: Memory, sentinel: nat, a: seq<nat>, b: seq<nat>, i: nat)
    requires Path(m, sentinel, a) && Path(m, sentinel, b) && i < |a| && i < |b|
    ensures a[i] == b[i]
  {
    hide Forward, Back, Readable;
    assert Linked(m, sentinel, a, i) && Linked(m, sentinel, b, i);
    if i > 0 {
      WalkDetermined(m, sentinel, a, b, i - 1);
    }
  }

  lemma LinkedNode(m: Memory, sentinel: nat, links: seq<nat>, i: nat)
    requires Path(m, sentinel, links) && i < |links|
    ensures links[i] != sentinel && links[i] == Tip(m, sentinel, links[..i])
    ensures Readable(m, links[i], 8) && Back(m, links[i]) == Last(sentinel, links[..i])
  {
    hide Forward, Back, Readable;
    assert Linked(m, sentinel, links, i);
  }

  lemma RingEnds(m: Memory, sentinel: nat, links: seq<nat>, ring: seq<nat>)
    requires Path(m, sentinel, links) && Ring(m, sentinel, ring)
    ensures |links| <= |ring| && links == ring[..|links|]
  {
    hide Forward, Back, Readable, Linked;
    forall i | 0 <= i < |links| && i < |ring| ensures links[i] == ring[i] {
      WalkDetermined(m, sentinel, links, ring, i);
    }
    if |ring| < |links| {
      assert links[..|ring|] == ring;
      LinkedNode(m, sentinel, links, |ring|);
    }
  }

  /** Memory determines the ring. */
  lemma RingUnique(m: Memory, sentinel: nat, a: seq<nat>, b: seq<nat>)
    requires Ring(m, sentinel, a) && Ring(m, sentinel, b)
    ensures a == b
  {
    hide Forward, Back, Linked, Readable;
    RingEnds(m, sentinel, a, b);
    RingEnds(m, sentinel, b, a);
  }

  /** A walk that has not come back to the sentinel is a proper beginning of any ring there is. */
  lemma RingContinues(m: Memory, sentinel: nat, links: seq<nat>, ring: seq<nat>)
    requires Path(m, sentinel, links) && Ring(m, sentinel, ring)
    ensures Tip(m, sentinel, links) != sentinel ==>
              && |links| < |ring| && links == ring[..|links|] && Tip(m, sentinel, links) == ring[|links|]
              && Readable(m, Tip(m, sentinel, links), 8)
              && Back(m, Tip(m, sentinel, links)) == Last(sentinel, links)
    ensures Tip(m, sentinel, links) == sentinel ==> links == ring
  {
    hide Forward, Back, Readable, Linked;
    RingEnds(m, sentinel, links, ring);
    if |links| < |ring| {
      LinkedNode(m, sentinel, ring, |links|);
    }
  }

  /** Going round: in a ring every node and the sentinel are what their neighbours point to, both ways. */
  lemma RingClosesBothWays(m: Memory, sentinel: nat, links: seq<nat>, i: nat)
    requires Ring(m, sentinel, links) && i <= |links|
    ensures var all := [sentinel] + links;
            var next := all[if i == |links| then 0 else i + 1];
            && Readable(m, all[i], 8) && Readable(m, next, 8)
            && Forward(m, all[i]) == next && Back(m, next) == all[i]
  {
    hide Forward, Back, Readable;
    assert i > 0 ==> Linked(m, sentinel, links, i - 1);
    assert i < |links| ==> Linked(m, sentinel, links, i);
  }
}
