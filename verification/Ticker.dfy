/**
  The census of the original ticker's two lists (src/bridge/native_global_observer.cpp, read_ticker_node,
  walk_ticker_list and ticker_census) over arbitrary memory.
*/
module Ticker {
  import opened LinkedRing

  /** The loaded image; an address inside it, other than its first byte, has a nonzero relative address. */
  datatype Image = Image(base: nat, end: nat, universe_rva: nat) {
    predicate Holds(address: nat) {
      base < address < end
    }
  }

  const CAPACITY := 512

  predicate HasObject(m: Memory, link: nat) {
    Readable(m, link, 12)
  }

  function Object(m: Memory, link: nat): nat
    requires HasObject(m, link)
  {
    Word(m, link + 8)
  }

  predicate ImageObject(m: Memory, image: Image, simulator: nat) {
    && Readable(m, simulator, 0x10) && image.Holds(Word(m, simulator))
    && Readable(m, Word(m, simulator) + 0x10, 4) && image.Holds(Word(m, Word(m, simulator) + 0x10))
  }

  /** A readable node whose object has its table and its update entry inside the image. */
  predicate NodeGood(m: Memory, image: Image, link: nat) {
    HasObject(m, link) && ImageObject(m, image, Object(m, link))
  }

  predicate AllNodes(m: Memory, image: Image, nodes: seq<nat>) {
    forall i :: 0 <= i < |nodes| ==> NodeGood(m, image, nodes[i])
  }

  /** Good nodes, no two of them the same and no two with the same object. */
  predicate Clean(m: Memory, image: Image, nodes: seq<nat>) {
    && |nodes| <= CAPACITY && AllNodes(m, image, nodes)
    && (forall i, j :: 0 <= i < j < |nodes| ==> nodes[i] != nodes[j])
    && (forall i, j :: 0 <= i < j < |nodes| ==> Object(m, nodes[i]) != Object(m, nodes[j]))
  }

  predicate Fresh(m: Memory, image: Image, nodes: seq<nat>, link: nat) {
    && |nodes| < CAPACITY && link !in nodes && NodeGood(m, image, link)
    && forall i :: 0 <= i < |nodes| ==>
         HasObject(m, nodes[i]) && Object(m, nodes[i]) != Object(m, link)
  }

  predicate IsUniverse(m: Memory, image: Image, link: nat)
    requires NodeGood(m, image, link)
  {
    var table := Word(m, Object(m, link));
    table == image.base + 0x1095750 && Word(m, table + 0x10) == image.base + image.universe_rva
  }

  function Universes(m: Memory, image: Image, nodes: seq<nat>): nat
    requires AllNodes(m, image, nodes)
  {
    if nodes == [] then 0
    else Universes(m, image, nodes[..|nodes| - 1]) + if IsUniverse(m, image, nodes[|nodes| - 1]) then 1 else 0
  }

  lemma CleanStep(m: Memory, image: Image, nodes: seq<nat>, link: nat)
    requires Clean(m, image, nodes)
    ensures Clean(m, image, nodes + [link]) <==> Fresh(m, image, nodes, link)
    ensures Clean(m, image, nodes + [link]) ==>
              Universes(m, image, nodes + [link])
              == Universes(m, image, nodes) + if IsUniverse(m, image, link) then 1 else 0
  {
    hide Readable, Word, Object, HasObject, ImageObject, IsUniverse;
    var longer := nodes + [link];
    assert longer[|nodes|] == link && longer[..|nodes|] == nodes;
    if Clean(m, image, longer) {
      forall i | 0 <= i < |nodes|
        ensures nodes[i] != link && HasObject(m, nodes[i]) && Object(m, nodes[i]) != Object(m, link)
      {
        assert longer[i] == nodes[i] && NodeGood(m, image, longer[|nodes|]);
      }
    }
  }

  lemma CleanPrefix(m: Memory, image: Image, nodes: seq<nat>, more: seq<nat>)
    requires Clean(m, image, nodes + more)
    ensures Clean(m, image, nodes)
  {
    hide Readable, Word, ImageObject;
    forall i | 0 <= i < |nodes| ensures NodeGood(m, image, nodes[i]) {
      assert (nodes + more)[i] == nodes[i];
    }
    forall i, j | 0 <= i < j < |nodes|
      ensures nodes[i] != nodes[j] && Object(m, nodes[i]) != Object(m, nodes[j])
    {
      assert (nodes + more)[i] == nodes[i] && (nodes + more)[j] == nodes[j];
    }
  }

  function Sentinel(ticker: nat, pending: bool): nat {
    ticker + if pending then 0x28 else 0x1c
  }

  class TickerWalk {
    const seen: array<nat>
    var total: nat
    var universes: nat
    var active: nat
    var pending: nat

    ghost predicate Valid()
      reads this, seen
    {
      seen.Length == CAPACITY && total <= CAPACITY && active + pending == total
    }

    ghost function Nodes(): (nodes: seq<nat>)
      requires Valid()
      reads this, seen
    {
      seen[..total]
    }

    constructor ()
      ensures Valid() && fresh(seen) && Nodes() == [] && active == 0 && universes == 0
    {
      seen := new nat[CAPACITY];
      total, universes, active, pending := 0, 0, 0, 0;
    }

    /** One node: new, linked back to the one before it, and holding a new object of the image. */
    method ReadTickerNode(m: Memory, image: Image, address: nat, previous: nat) returns (ok: bool)
      requires Valid() && AllNodes(m, image, Nodes())
      ensures ok <==> && Fresh(m, image, Nodes(), address) && Back(m, address) == previous
    {
      hide Word, ImageObject;
      if total == seen.Length || (exists k :: 0 <= k < total && seen[k] == address) {
        return false;
      }
      if !Readable(m, address, 4) || !Readable(m, address + 4, 4) || Word(m, address + 4) != previous ||
         !Readable(m, address + 8, 4) {
        return false;
      }
      var simulator := Word(m, address + 8);
      if !ImageObject(m, image, simulator) {
        return false;
      }
      for i := 0 to total
        invariant forall k :: 0 <= k < i ==> Object(m, seen[k]) != simulator
      {
        assert seen[i] == Nodes()[i];
        if Word(m, seen[i] + 8) == simulator {
          return false;
        }
      }
      return true;
    }

    method Record(address: nat, list: bool, isUniverse: bool)
      requires Valid() && total < CAPACITY
      modifies this, seen
      ensures Valid() && Nodes() == old(Nodes()) + [address]
      ensures active == old(active) + (if list then 0 else 1) && pending == old(pending) + (if list then 1 else 0)
      ensures universes == old(universes) + if isUniverse then 1 else 0
    {
      seen[total] := address;
      total := total + 1;
      if list {
        pending := pending + 1;
      } else {
        active := active + 1;
      }
      if isUniverse {
        universes := universes + 1;
      }
    }

    /**
      Walks the active list or the pending one. It succeeds exactly when the list is a consistent ring of nodes that
      are new to both lists, and it stops after at most 512 nodes in any memory.
    */
    method WalkTickerList(m: Memory, image: Image, ticker: nat, list: bool) returns (ok: bool, ghost links: seq<nat>)
      requires Valid() && Clean(m, image, Nodes())
      modifies this, seen
      ensures Valid()
      ensures ok ==> Ring(m, Sentinel(ticker, list), links)
      ensures ok ==> Clean(m, image, Nodes()) && Nodes() == old(Nodes()) + links
      ensures ok ==> active == old(active) + (if list then 0 else |links|)
      ensures ok ==> pending == old(pending) + (if list then |links| else 0)
      ensures ok && old(universes == Universes(m, image, Nodes())) ==> universes == Universes(m, image, Nodes())
      ensures !ok ==> Unwalkable(m, image, old(Nodes()), Sentinel(ticker, list))
    {
      hide Readable, Forward, Back, Linked, Clean, Universes, Fresh, IsUniverse, NodeGood, AllNodes;
      var sentinel := Sentinel(ticker, list);
      links := [];
      if !Readable(m, sentinel, 8) {
        return false, links;
      }
      ghost var before := Nodes();
      var next, previous, tail := Forward(m, sentinel), sentinel, Back(m, sentinel);
      assert before + [] == before;
      CleanNodes(m, image, before);
      while next != sentinel
        invariant Valid() && Nodes() == before + links && Clean(m, image, before + links)
        invariant Path(m, sentinel, links) && next == Tip(m, sentinel, links) && previous == Last(sentinel, links)
        invariant active == old(active) + (if list then 0 else |links|)
        invariant pending == old(pending) + (if list then |links| else 0)
        invariant AllNodes(m, image, before) && AllNodes(m, image, before + links)
        invariant old(universes) == Universes(m, image, before) ==>
                    universes == Universes(m, image, before + links)
        decreases CAPACITY - total
      {
        var fine := ReadTickerNode(m, image, next, previous);
        if !fine {
          NoCleanRing(m, image, before, sentinel, links);
          return false, links;
        }
        FreshNode(m, image, before + links, next);
        CleanStep(m, image, before + links, next);
        PathGrows(m, sentinel, links, next);
        assert before + links + [next] == before + (links + [next]);
        Record(next, list, IsUniverse(m, image, next));
        links := links + [next];
        CleanNodes(m, image, before + links);
        previous := next;
        next := Forward(m, next);
      }
      ok := previous == tail;
      if !ok {
        forall ring | Ring(m, sentinel, ring) ensures false {
          RingContinues(m, sentinel, links, ring);
        }
      }
    }
  }

  lemma CleanNodes(m: Memory, image: Image, nodes: seq<nat>)
    requires Clean(m, image, nodes)
    ensures AllNodes(m, image, nodes) && |nodes| <= CAPACITY
  {}

  lemma FreshNode(m: Memory, image: Image, nodes: seq<nat>, link: nat)
    requires Fresh(m, image, nodes, link)
    ensures NodeGood(m, image, link) && Readable(m, link, 8) && |nodes| < CAPACITY
  {}

  /** There is no consistent ring here whose nodes are new to these nodes. */
  ghost predicate Unwalkable(m: Memory, image: Image, before: seq<nat>, sentinel: nat) {
    forall ring :: Ring(m, sentinel, ring) ==> !Clean(m, image, before + ring)
  }

  lemma NoCleanRing(m: Memory, image: Image, before: seq<nat>, sentinel: nat, links: seq<nat>)
    requires Path(m, sentinel, links) && Tip(m, sentinel, links) != sentinel && Clean(m, image, before + links)
    requires var next := Tip(m, sentinel, links);
             !Fresh(m, image, before + links, next) || Back(m, next) != Last(sentinel, links)
    ensures Unwalkable(m, image, before, sentinel)
  {
    hide Readable, Forward, Back, Linked, Clean, Fresh;
    var next := Tip(m, sentinel, links);
    forall ring | Ring(m, sentinel, ring) ensures !Clean(m, image, before + ring) {
      RingContinues(m, sentinel, links, ring);
      if Clean(m, image, before + ring) {
        assert before + ring == (before + links + [next]) + ring[|links| + 1..];
        CleanPrefix(m, image, before + links + [next], ring[|links| + 1..]);
        CleanStep(m, image, before + links, next);
      }
    }
  }

  // ---- The census ----

  /** The ticker simulator, with its table at its expected place in the image. */
  predicate TickerObject(m: Memory, image: Image, ticker: nat) {
    && Readable(m, ticker, 0x44) && image.Holds(Word(m, ticker)) && Word(m, ticker) == image.base + 0x1065bd0
  }

  /** Two consistent rings, at the two sentinels in the ticker, that share no node and no object. */
  predicate TwoRings(m: Memory, image: Image, ticker: nat, active: seq<nat>, pending: seq<nat>) {
    && Ring(m, ticker + 0x1c, active) && Ring(m, ticker + 0x28, pending)
    && Clean(m, image, active + pending)
  }

  ghost predicate Certifiable(m: Memory, image: Image) {
    && Readable(m, image.base + 0x127eaf0, 4)
    && var ticker := Word(m, image.base + 0x127eaf0);
       ticker == 0 || (TickerObject(m, image, ticker) && exists a, p :: TwoRings(m, image, ticker, a, p))
  }

  /** There is at most one pair of lists to count. */
  lemma TwoRingsUnique(m: Memory, image: Image, ticker: nat, a: seq<nat>, p: seq<nat>, b: seq<nat>, q: seq<nat>)
    requires TwoRings(m, image, ticker, a, p) && TwoRings(m, image, ticker, b, q)
    ensures a == b && p == q
  {
    hide Ring, Clean;
    RingUnique(m, Sentinel(ticker, false), a, b);
    RingUnique(m, Sentinel(ticker, true), p, q);
  }

  /** The census is complete exactly when the memory can be certified, and then its counts are the true lengths. */
  method TickerCensus(m: Memory, image: Image)
    returns (valid: bool, active: nat, pending: nat, universes: nat, ghost a: seq<nat>, ghost p: seq<nat>)
    ensures valid <==> Certifiable(m, image)
    ensures valid && Word(m, image.base + 0x127eaf0) != 0 ==>
              && TwoRings(m, image, Word(m, image.base + 0x127eaf0), a, p)
              && active == |a| && pending == |p| && active + pending <= CAPACITY
              && AllNodes(m, image, a + p) && universes == Universes(m, image, a + p)
    ensures valid && Word(m, image.base + 0x127eaf0) == 0 ==> active == 0 && pending == 0 && universes == 0
  {
    hide Ring, Clean, Universes, Word, AllNodes, TickerObject;
    a, p := [], [];
    if !Readable(m, image.base + 0x127eaf0, 4) {
      return false, 0, 0, 0, a, p;
    }
    var ticker := Word(m, image.base + 0x127eaf0);
    if ticker == 0 {
      return true, 0, 0, 0, a, p;
    }
    if !TickerObject(m, image, ticker) {
      return false, 0, 0, 0, a, p;
    }
    var walk := new TickerWalk();
    EmptyClean(m, image);
    valid, a := walk.WalkTickerList(m, image, ticker, false);
    assert [] + a == a;
    if valid {
      CleanNodes(m, image, a);
      valid, p := walk.WalkTickerList(m, image, ticker, true);
      if valid {
        CleanNodes(m, image, a + p);
        assert TwoRings(m, image, ticker, a, p);
      } else {
        SecondFails(m, image, ticker, a);
      }
    } else {
      FirstFails(m, image, ticker);
    }
    active, pending, universes := walk.active, walk.pending, walk.universes;
  }

  lemma EmptyClean(m: Memory, image: Image)
    ensures Clean(m, image, []) && AllNodes(m, image, []) && Universes(m, image, []) == 0
  {}

  lemma EmptyPrefix(s: seq<nat>)
    ensures [] + s == s
  {}

  lemma FirstFails(m: Memory, image: Image, ticker: nat)
    requires Unwalkable(m, image, [], Sentinel(ticker, false))
    ensures !exists a, p :: TwoRings(m, image, ticker, a, p)
  {
    hide Ring, Clean;
    forall a, p | TwoRings(m, image, ticker, a, p) ensures false {
      EmptyPrefix(a);
      CleanPrefix(m, image, a, p);
    }
  }

  lemma SecondFails(m: Memory, image: Image, ticker: nat, a: seq<nat>)
    requires Ring(m, Sentinel(ticker, false), a) && Unwalkable(m, image, a, Sentinel(ticker, true))
    ensures !exists b, p :: TwoRings(m, image, ticker, b, p)
  {
    hide Ring, Clean;
    forall b, p | TwoRings(m, image, ticker, b, p) ensures false {
      RingUnique(m, Sentinel(ticker, false), a, b);
    }
  }
}
