/**
  The nonmutating census of an original history container (src/bridge/native_history_context.cpp, payload,
  digest_category and digest) over arbitrary memory, and the hash it computes.
*/
module HistoryDigest {
  import opened Words
  import opened Fnv
  import opened LinkedRing

  // ---- Histories as values ----

  datatype Entry = Entry(header: seq<byte>, data: seq<byte>) {
    function Hashed(): seq<byte> {
      header + Size32(|data|) + data
    }
  }

  datatype Category = Category(key: seq<byte>, entries: seq<Entry>) {
    function Hashed(): seq<byte> {
      key + EntryBytes(entries)
    }
  }

  function Size32(n: nat): seq<byte> {
    [n % 256, n / 256 % 256, n / 65536 % 256, n / 16777216 % 256]
  }

  function EntryBytes(es: seq<Entry>): seq<byte> {
    if es == [] then [] else EntryBytes(es[..|es| - 1]) + es[|es| - 1].Hashed()
  }

  function Sum(cs: seq<Category>): nat {
    if cs == [] then 0 else Sum(cs[..|cs| - 1]) + HashBytes(BASIS, cs[|cs| - 1].Hashed())
  }

  function HistoryHash(date: seq<byte>, cs: seq<Category>): word64 {
    (HashBytes(BASIS, date) + Sum(cs)) % MODULUS
  }

  // ---- Lists ----

  /** A list node the walk can take: readable, with a payload vector inside its bounds. */
  predicate GoodLink(m: Memory, link: nat) {
    Readable(m, link, 0x28) && GoodPayload(m, link + 8)
  }

  predicate GoodPayload(m: Memory, entry: nat) {
    && Readable(m, entry, 0x20)
    && var begin, end, capacity := Word(m, entry + 0xc), Word(m, entry + 0x10), Word(m, entry + 0x14);
       begin <= end <= capacity && (end - begin) % 4 == 0 && end - begin <= 1048576
       && (end > begin ==> Readable(m, begin, end - begin))
  }

  function PayloadBytes(m: Memory, entry: nat): seq<byte>
    requires GoodPayload(m, entry)
  {
    Bytes(m, Word(m, entry + 0xc), Word(m, entry + 0x10) - Word(m, entry + 0xc))
  }

  function EntryAt(m: Memory, link: nat): Entry
    requires GoodLink(m, link)
  {
    Entry(Bytes(m, link + 8, 12), PayloadBytes(m, link + 8))
  }

  predicate AllGood(m: Memory, links: seq<nat>) {
    forall i :: 0 <= i < |links| ==> GoodLink(m, links[i])
  }

  /** A walk over nodes the census can take, and a consistent ring of them. */
  predicate GoodPath(m: Memory, sentinel: nat, links: seq<nat>) {
    Path(m, sentinel, links) && AllGood(m, links)
  }

  predicate GoodRing(m: Memory, sentinel: nat, links: seq<nat>) {
    Ring(m, sentinel, links) && AllGood(m, links)
  }

  function Entries(m: Memory, links: seq<nat>): (es: seq<Entry>)
    requires AllGood(m, links)
    ensures |es| == |links|
  {
    if links == [] then [] else Entries(m, links[..|links| - 1]) + [EntryAt(m, links[|links| - 1])]
  }

  function CategoryAt(m: Memory, address: nat, links: seq<nat>): Category
    requires Readable(m, address, 4) && AllGood(m, links)
  {
    Category(Bytes(m, address, 4), Entries(m, links))
  }

  const MAX_EVENTS := 65536

  /** Reads the payload vector of one entry. */
  method Payload(m: Memory, entry: nat) returns (ok: bool, bytes: seq<byte>)
    ensures ok <==>
              && Readable(m, entry, 32)
              && var begin, end := Word(m, entry + 12), Word(m, entry + 16);
                 && begin <= end <= Word(m, entry + 20) && (end - begin) % 4 == 0 && end - begin <= 0x10_0000
                 && (begin == end || Readable(m, begin, end - begin))
    ensures ok <==> GoodPayload(m, entry)
    ensures ok ==> bytes == PayloadBytes(m, entry)
  {
    if !Readable(m, entry, 0x20) {
      return false, [];
    }
    var begin, end, capacity := Word(m, entry + 0xc), Word(m, entry + 0x10), Word(m, entry + 0x14);
    if end < begin || capacity < end || (end - begin) % 4 != 0 || end - begin > 1048576 ||
       (end > begin && !Readable(m, begin, end - begin)) {
      return false, [];
    }
    return true, Bytes(m, begin, end - begin);
  }

  lemma PathExtends(m: Memory, sentinel: nat, links: seq<nat>, link: nat)
    requires GoodPath(m, sentinel, links) && GoodLink(m, link)
    requires link == Tip(m, sentinel, links) && link != sentinel && Back(m, link) == Last(sentinel, links)
    ensures GoodPath(m, sentinel, links + [link])
    ensures Entries(m, links + [link]) == Entries(m, links) + [EntryAt(m, link)]
  {
    hide Forward, Back, EntryAt, Linked;
    PathGrows(m, sentinel, links, link);
    assert (links + [link])[..|links|] == links;
  }

  /** Succeeds exactly on a consistent ring within the event budget, and hashes its entries in order. */
  method DigestCategory(m: Memory, address: nat, events: nat, hash: word64)
    returns (ok: bool, total: nat, result: word64, ghost links: seq<nat>)
    requires Readable(m, address, 0x14)
    ensures ok ==> GoodRing(m, address + 4, links) && total == events + |links|
    ensures ok ==> result == HashBytes(hash, EntryBytes(Entries(m, links)))
    ensures ok ==> total == events || total <= MAX_EVENTS
    ensures !ok ==> !exists ring :: GoodRing(m, address + 4, ring) && (ring == [] || events + |ring| <= MAX_EVENTS)
  {
    hide Word, GoodPayload, HashBytes, EntryBytes, Size32, Linked, Entries, EntryAt, PayloadBytes;
    var sentinel := address + 4;
    var previous, item := sentinel, Forward(m, sentinel);
    total, result, links := events, hash, [];
    NoEntries(m, hash);
    while item != sentinel
      invariant GoodPath(m, sentinel, links)
      invariant item == Tip(m, sentinel, links) && previous == Last(sentinel, links)
      invariant total == events + |links| && (links == [] || total <= MAX_EVENTS)
      invariant result == HashBytes(hash, EntryBytes(Entries(m, links)))
      decreases MAX_EVENTS - total
    {
      if total >= MAX_EVENTS || !Readable(m, item, 0x28) || Back(m, item) != previous {
        NoRing(m, sentinel, links, events);
        return false, total, result, links;
      }
      var readable, data := Payload(m, item + 8);
      if !readable {
        NoRing(m, sentinel, links, events);
        return false, total, result, links;
      }
      result := HashLink(m, item, result, data);
      HashedEntry(hash, Entries(m, links), EntryAt(m, item));
      PathExtends(m, sentinel, links, item);
      links := links + [item];
      total := total + 1;
      previous := item;
      item := Forward(m, item);
    }
    ok := Back(m, sentinel) == previous;
    if !ok {
      forall ring | GoodRing(m, sentinel, ring) ensures false {
        RingContinues(m, sentinel, links, ring);
      }
    }
  }

  /** The twelve header bytes, the size and the payload of one entry. */
  method HashLink(m: Memory, item: nat, hash: word64, data: seq<byte>) returns (result: word64)
    requires GoodLink(m, item) && data == PayloadBytes(m, item + 8)
    ensures result == HashBytes(hash, EntryAt(m, item).Hashed())
  {
    hide HashBytes, Bytes, Size32, Word, PayloadBytes;
    var header := Bytes(m, item + 8, 12);
    result := ComputeHash(hash, header);
    result := ComputeHash(result, Size32(|data|));
    HashConcat(hash, header, Size32(|data|));
    HashConcat(hash, header + Size32(|data|), data);
    if data != [] {
      result := ComputeHash(result, data);
    } else {
      assert header + Size32(|data|) + data == header + Size32(|data|);
    }
  }

  lemma NoEntries(m: Memory, hash: word64)
    ensures HashBytes(hash, EntryBytes(Entries(m, []))) == hash
  {}

  lemma HashedEntry(h: word64, es: seq<Entry>, e: Entry)
    ensures HashBytes(HashBytes(h, EntryBytes(es)), e.Hashed()) == HashBytes(h, EntryBytes(es + [e]))
  {
    hide HashBytes, Entry.Hashed;
    HashConcat(h, EntryBytes(es), e.Hashed());
    assert (es + [e])[..|es|] == es;
  }

  lemma NoRing(m: Memory, sentinel: nat, links: seq<nat>, events: nat)
    requires GoodPath(m, sentinel, links) && Tip(m, sentinel, links) != sentinel
    requires var item := Tip(m, sentinel, links);
             events + |links| >= MAX_EVENTS || !GoodLink(m, item) || Back(m, item) != Last(sentinel, links)
    ensures !exists ring :: GoodRing(m, sentinel, ring) && (ring == [] || events + |ring| <= MAX_EVENTS)
  {
    hide Forward, Back, GoodLink, Readable, Linked;
    forall ring | GoodRing(m, sentinel, ring) ensures ring != [] && events + |ring| > MAX_EVENTS {
      RingContinues(m, sentinel, links, ring);
    }
  }

  // ---- The whole container ----

  const MAX_BUCKETS := 65536

  /** The manager object: both vtables, the bucket table, its size and the number of categories. */
  predicate Layout(m: Memory, manager: nat, base: nat) {
    Readable(m, manager, 0x40) && Word(m, manager) == base + 0x1014354 && Word(m, manager + 8) == base + 0x1014330
  }

  /** One visited category node and the list nodes found on it. */
  datatype Visit = Visit(address: nat, links: seq<nat>)

  predicate Consistent(m: Memory, v: Visit) {
    Readable(m, v.address, 0x14) && GoodRing(m, v.address + 4, v.links)
  }

  predicate AllConsistent(m: Memory, vs: seq<Visit>) {
    forall i :: 0 <= i < |vs| ==> Consistent(m, vs[i])
  }

  function Categories(m: Memory, vs: seq<Visit>): (cs: seq<Category>)
    requires AllConsistent(m, vs)
    ensures |cs| == |vs|
  {
    if vs == [] then []
    else Categories(m, vs[..|vs| - 1]) + [CategoryAt(m, vs[|vs| - 1].address, vs[|vs| - 1].links)]
  }

  function Events(vs: seq<Visit>): nat {
    if vs == [] then 0 else Events(vs[..|vs| - 1]) + |vs[|vs| - 1].links|
  }

  /** The chain of one bucket: each visited node names the next, and the last one names `rest`. */
  predicate Chained(m: Memory, head: nat, vs: seq<Visit>, rest: nat) {
    if vs == [] then head == rest
    else
      var v := vs[|vs| - 1];
      Readable(m, v.address, 0x14) && rest == Word(m, v.address + 0x10) && v.address != 0
      && Chained(m, head, vs[..|vs| - 1], v.address)
  }

  /** A digest result: the visits of each bucket in order, ending each chain at null. */
  predicate Census(m: Memory, buckets: nat, chains: seq<seq<Visit>>) {
    Readable(m, buckets, 4 * |chains| + 4)
    && forall i :: 0 <= i < |chains| ==> Chained(m, Word(m, buckets + 4 * i), chains[i], 0)
  }

  function Flatten(chains: seq<seq<Visit>>): seq<Visit> {
    if chains == [] then [] else Flatten(chains[..|chains| - 1]) + chains[|chains| - 1]
  }

  /** What the walk over the buckets knows about its visits so far. */
  predicate Tallied(m: Memory, date: seq<byte>, vs: seq<Visit>, categories: nat, events: nat, hash: word64) {
    && AllConsistent(m, vs) && categories == |vs| && events == Events(vs) && events <= MAX_EVENTS
    && hash == HistoryHash(date, Categories(m, vs))
  }

  lemma TallyAdd(m: Memory, date: seq<byte>, vs: seq<Visit>, categories: nat, events: nat, hash: word64,
                 v: Visit, added: word64)
    requires Tallied(m, date, vs, categories, events, hash) && Consistent(m, v)
    requires events + |v.links| <= MAX_EVENTS
    requires added == HashBytes(BASIS, CategoryAt(m, v.address, v.links).Hashed())
    ensures Tallied(m, date, vs + [v], categories + 1, events + |v.links|, (hash + added) % MODULUS)
  {
    hide Consistent, HashBytes, CategoryAt, Category.Hashed;
    ConsistentParts(m, v);
    var ws := vs + [v];
    assert ws[..|vs|] == vs;
    var cs := Categories(m, ws);
    assert cs == Categories(m, vs) + [CategoryAt(m, v.address, v.links)];
    assert cs[..|cs| - 1] == Categories(m, vs);
    SumMod(HashBytes(BASIS, date) + Sum(Categories(m, vs)), added);
  }

  lemma ConsistentParts(m: Memory, v: Visit)
    requires Consistent(m, v)
    ensures Readable(m, v.address, 4) && AllGood(m, v.links)
  {
    hide Linked;
  }

  lemma SumMod(a: nat, b: nat)
    ensures (a % MODULUS + b) % MODULUS == (a + b) % MODULUS
  {
    var q := a / MODULUS;
    assert a + b == MODULUS * q + (a % MODULUS + b);
  }

  lemma ChainAdd(m: Memory, head: nat, vs: seq<Visit>, v: Visit)
    requires Chained(m, head, vs, v.address) && v.address != 0 && Readable(m, v.address, 0x14)
    ensures Chained(m, head, vs + [v], Word(m, v.address + 0x10))
  {
    hide Word;
    assert (vs + [v])[..|vs|] == vs;
  }

  /** A chain that a walk of this bucket can complete within the two budgets. */
  ghost predicate Fits(m: Memory, head: nat, expected: nat, categories: nat, events: nat, chain: seq<Visit>) {
    && Chained(m, head, chain, 0) && AllConsistent(m, chain)
    && (chain == [] || categories + |chain| <= expected) && events + Events(chain) <= MAX_EVENTS
  }

  ghost predicate Unfit(m: Memory, head: nat, expected: nat, categories: nat, events: nat) {
    forall chain :: !Fits(m, head, expected, categories, events, chain)
  }

  /** Walks one bucket chain; it fails exactly when there is no chain to complete. */
  method DigestBucket(m: Memory, head: nat, expected: nat, date: seq<byte>,
                      categories0: nat, events0: nat, hash0: word64, ghost visits: seq<Visit>)
    returns (ok: bool, categories: nat, events: nat, hash: word64, ghost chain: seq<Visit>)
    requires Tallied(m, date, visits, categories0, events0, hash0)
    ensures ok ==> Chained(m, head, chain, 0) && Tallied(m, date, visits + chain, categories, events, hash)
    ensures ok ==> Fits(m, head, expected, categories0, events0, chain)
    ensures !ok ==> Unfit(m, head, expected, categories0, events0)
  {
    hide Tallied, HashBytes, Consistent, Chained, Category.Hashed, Ring, EntryBytes, Entries, Word, Fits, GoodRing;
    categories, events, hash, chain := categories0, events0, hash0, [];
    var address := head;
    assert Chained(m, head, [], head) by {
      ChainStart(m, head);
    }
    assert visits + [] == visits;
    while address != 0
      invariant Chained(m, head, chain, address)
      invariant Tallied(m, date, visits + chain, categories, events, hash)
      invariant AllConsistent(m, chain) && categories == categories0 + |chain| && events == events0 + Events(chain)
      invariant categories <= expected || chain == []
      decreases expected - categories
    {
      if categories >= expected || !Readable(m, address, 0x14) {
        CannotFit(m, head, expected, categories0, events0, chain, address);
        return false, categories, events, hash, chain;
      }
      TalliedBound(m, date, visits + chain, categories, events, hash);
      var good, total, added := false, 0, 0;
      ghost var links;
      added := ComputeHash(BASIS, Bytes(m, address, 4));
      good, total, added, links := DigestCategory(m, address, events, added);
      if !good {
        CannotFit(m, head, expected, categories0, events0, chain, address);
        return false, categories, events, hash, chain;
      }
      var v := Visit(address, links);
      ConsistentVisit(m, address, links);
      HashedCategory(m, address, links);
      TallyAdd(m, date, visits + chain, categories, events, hash, v, added);
      ChainAdd(m, head, chain, v);
      assert visits + chain + [v] == visits + (chain + [v]);
      assert (chain + [v])[..|chain|] == chain;
      chain := chain + [v];
      hash := (hash + added) % MODULUS;
      categories := categories + 1;
      events := total;
      address := Word(m, address + 0x10);
    }
    TalliedBound(m, date, visits + chain, categories, events, hash);
    CompletedFits(m, head, expected, categories0, events0, chain);
    ok := true;
  }

  lemma CompletedFits(m: Memory, head: nat, expected: nat, categories: nat, events: nat, chain: seq<Visit>)
    requires Chained(m, head, chain, 0) && AllConsistent(m, chain)
    requires categories + |chain| <= expected || chain == []
    requires events + Events(chain) <= MAX_EVENTS
    ensures Fits(m, head, expected, categories, events, chain)
  {}

  /** A list this node heads, within what is left of the event budget. */
  ghost predicate Walkable(m: Memory, address: nat, events: nat) {
    exists ring :: GoodRing(m, address + 4, ring) && (ring == [] || events + |ring| <= MAX_EVENTS)
  }

  lemma FitContinues(m: Memory, head: nat, expected: nat, categories: nat, events: nat, chain: seq<Visit>, address: nat,
                     c: seq<Visit>)
    requires Chained(m, head, chain, address) && AllConsistent(m, chain) && address != 0
    requires Fits(m, head, expected, categories, events, c)
    ensures categories + |chain| < expected && Readable(m, address, 0x14)
    ensures Walkable(m, address, events + Events(chain))
  {
    hide Chained, Consistent, GoodRing, Word, Events;
    WalkPrefix(m, head, chain, address, c);
    var v := c[|chain|];
    ConsistentRing(m, v);
    EventsPrefix(c, |chain|);
    assert GoodRing(m, address + 4, v.links);
  }

  /** A walk whose next node is unreadable, over budget, or heads no list within budget is part of no fitting chain. */
  lemma CannotFit(m: Memory, head: nat, expected: nat, categories: nat, events: nat, chain: seq<Visit>, address: nat)
    requires Chained(m, head, chain, address) && AllConsistent(m, chain) && address != 0
    requires categories + |chain| >= expected || !Readable(m, address, 0x14)
             || !Walkable(m, address, events + Events(chain))
    ensures Unfit(m, head, expected, categories, events)
  {
    hide Chained, Consistent, Walkable, Fits;
    forall c ensures !Fits(m, head, expected, categories, events, c) {
      if Fits(m, head, expected, categories, events, c) {
        FitContinues(m, head, expected, categories, events, chain, address, c);
      }
    }
  }

  lemma ConsistentRing(m: Memory, v: Visit)
    requires Consistent(m, v)
    ensures Readable(m, v.address, 0x14) && GoodRing(m, v.address + 4, v.links)
  {
    hide Ring;
  }

  lemma {:induction false} EventsConcat(a: seq<Visit>, b: seq<Visit>)
    ensures Events(a + b) == Events(a) + Events(b)
  {
    if b == [] {
      assert a + b == a;
    } else {
      assert (a + b)[..|a + b| - 1] == a + b[..|b| - 1];
      EventsConcat(a, b[..|b| - 1]);
    }
  }

  lemma EventsPrefix(vs: seq<Visit>, i: nat)
    requires i < |vs|
    ensures Events(vs[..i]) + |vs[i].links| <= Events(vs)
  {
    EventsConcat(vs[..i + 1], vs[i + 1..]);
    assert vs == vs[..i + 1] + vs[i + 1..] && vs[..i + 1][..i] == vs[..i];
  }

  lemma {:induction false} ChainHead(m: Memory, head: nat, vs: seq<Visit>, rest: nat)
    requires Chained(m, head, vs, rest)
    ensures head == if vs == [] then rest else vs[0].address
  {
    hide Word;
    if |vs| > 1 {
      ChainHead(m, head, vs[..|vs| - 1], vs[|vs| - 1].address);
    }
  }

  /** Memory determines the walk: a partial walk is the beginning of any complete chain of consistent nodes. */
  lemma {:induction false} WalkPrefix(m: Memory, head: nat, chain: seq<Visit>, address: nat, c: seq<Visit>)
    requires Chained(m, head, chain, address) && AllConsistent(m, chain)
    requires Chained(m, head, c, 0) && AllConsistent(m, c)
    ensures |chain| <= |c| && chain == c[..|chain|]
    ensures if address == 0 then |chain| == |c| else |chain| < |c| && c[|chain|].address == address
    decreases |chain|
  {
    if chain == [] {
      WalkStart(m, head, address, c);
    } else {
      var n := |chain| - 1;
      LastVisit(m, head, chain, address);
      var before, at := chain[..n], chain[n].address;
      hide *;
      WalkPrefix(m, head, before, at, c);
      assert |before| == n && n < |c| && c[n].address == at;
      WalkOn(m, head, chain, address, c);
    }
  }

  lemma WalkOn(m: Memory, head: nat, chain: seq<Visit>, address: nat, c: seq<Visit>)
    requires Chained(m, head, chain, address) && AllConsistent(m, chain) && chain != []
    requires Chained(m, head, c, 0) && AllConsistent(m, c)
    requires var n := |chain| - 1; n < |c| && chain[..n] == c[..n] && c[n].address == chain[n].address
    ensures chain == c[..|chain|]
    ensures if address == 0 then |chain| == |c| else |chain| < |c| && c[|chain|].address == address
  {
    var n := |chain| - 1;
    LastVisit(m, head, chain, address);
    NextVisit(m, head, c, n);
    assert Consistent(m, chain[n]) && Consistent(m, c[n]);
    hide *;
    OneVisit(m, chain[n], c[n]);
    OneMore(chain, c, n);
  }

  lemma OneMore<T>(s: seq<T>, t: seq<T>, n: nat)
    requires n + 1 == |s| && n < |t| && s[..n] == t[..n] && s[n] == t[n]
    ensures s == t[..n + 1] && (n + 1 == |t| ==> s == t)
  {
    assert s == s[..n] + [s[n]] && t[..n + 1] == t[..n] + [t[n]];
  }

  lemma WalkStart(m: Memory, head: nat, address: nat, c: seq<Visit>)
    requires Chained(m, head, [], address) && Chained(m, head, c, 0)
    ensures if address == 0 then c == [] else c != [] && c[0].address == address
  {
    hide Word;
    ChainHead(m, head, c, 0);
    if c != [] {
      ChainNext(m, head, c, 0, 0);
    }
  }

  lemma LastVisit(m: Memory, head: nat, chain: seq<Visit>, address: nat)
    requires Chained(m, head, chain, address) && AllConsistent(m, chain) && chain != []
    ensures var n := |chain| - 1;
            && Chained(m, head, chain[..n], chain[n].address) && AllConsistent(m, chain[..n]) && chain[n].address != 0
            && Readable(m, chain[n].address, 0x14) && address == Word(m, chain[n].address + 0x10)
  {
    hide Consistent, Word;
  }

  /** What a node of a complete chain names: the node after it, or null at the end. */
  lemma NextVisit(m: Memory, head: nat, c: seq<Visit>, n: nat)
    requires Chained(m, head, c, 0) && n < |c|
    ensures Readable(m, c[n].address, 0x14)
    ensures var next := Word(m, c[n].address + 0x10);
            if n + 1 < |c| then next != 0 && next == c[n + 1].address else next == 0
  {
    hide Word;
    ChainNext(m, head, c, 0, n);
    if n + 1 < |c| {
      ChainNext(m, head, c, 0, n + 1);
    }
  }

  lemma OneVisit(m: Memory, v: Visit, w: Visit)
    requires Consistent(m, v) && Consistent(m, w) && v.address == w.address
    ensures v == w
  {
    hide Ring;
    RingUnique(m, v.address + 4, v.links, w.links);
  }

  lemma ChainStart(m: Memory, head: nat)
    ensures Chained(m, head, [], head)
  {}

  lemma TalliedBound(m: Memory, date: seq<byte>, vs: seq<Visit>, categories: nat, events: nat, hash: word64)
    requires Tallied(m, date, vs, categories, events, hash)
    ensures events <= MAX_EVENTS
  {}

  lemma ConsistentVisit(m: Memory, address: nat, links: seq<nat>)
    requires Readable(m, address, 0x14) && GoodRing(m, address + 4, links)
    ensures Consistent(m, Visit(address, links)) && AllGood(m, links)
  {
    hide Linked;
  }

  lemma HashedCategory(m: Memory, address: nat, links: seq<nat>)
    requires Readable(m, address, 4) && AllGood(m, links)
    ensures HashBytes(BASIS, CategoryAt(m, address, links).Hashed())
         == HashBytes(HashBytes(BASIS, Bytes(m, address, 4)), EntryBytes(Entries(m, links)))
  {
    hide HashBytes, Bytes, EntryBytes, Entries;
    HashConcat(BASIS, Bytes(m, address, 4), EntryBytes(Entries(m, links)));
  }

  lemma TallyStart(m: Memory, date: seq<byte>)
    ensures Tallied(m, date, [], 0, 0, HashBytes(BASIS, date))
  {
    hide HashBytes;
  }

  /** The whole container: every bucket chain ends at null, every category list is a consistent ring, within budgets. */
  ghost predicate Certified(m: Memory, manager: nat, base: nat, chains: seq<seq<Visit>>) {
    && Layout(m, manager, base) && 0 < |chains| <= MAX_BUCKETS && |chains| == Word(m, manager + 0x14)
    && Census(m, Word(m, manager + 0x10), chains) && AllConsistent(m, Flatten(chains))
    && |Flatten(chains)| == Word(m, manager + 0x18) <= 65536 && Events(Flatten(chains)) <= MAX_EVENTS
  }

  /** The census succeeds exactly on a container that can be certified; its counts and hash are its history's. */
  method Digest(m: Memory, manager: nat, base: nat)
    returns (valid: bool, categories: nat, events: nat, hash: word64, ghost chains: seq<seq<Visit>>)
    ensures valid <==> exists all :: Certified(m, manager, base, all)
    ensures valid ==> Certified(m, manager, base, chains)
    ensures valid ==> Tallied(m, Bytes(m, manager + 0x30, 8), Flatten(chains), categories, events, hash)
  {
    hide Tallied, HashBytes, Chained, Word, Bytes, Certified, Fits, Events;
    categories, events, hash, chains := 0, 0, 0, [];
    NotCertified(m, manager, base);
    if !Layout(m, manager, base) {
      return false, 0, 0, 0, [];
    }
    ghost var date := Bytes(m, manager + 0x30, 8);
    hash := ComputeHash(BASIS, Bytes(m, manager + 0x30, 8));
    var buckets, count, expected := Word(m, manager + 0x10), Word(m, manager + 0x14), Word(m, manager + 0x18);
    if count == 0 || count > MAX_BUCKETS || expected > 65536 || !Readable(m, buckets, (count + 1) * 4) {
      return false, 0, 0, hash, [];
    }
    TallyStart(m, date);
    var i := 0;
    while i < count
      invariant i <= count && |chains| == i
      invariant forall k :: 0 <= k < i ==> Chained(m, Word(m, buckets + 4 * k), chains[k], 0)
      invariant Tallied(m, date, Flatten(chains), categories, events, hash)
    {
      ghost var chain;
      var ok;
      ghost var categories0, events0 := categories, events;
      TalliedParts(m, date, Flatten(chains), categories, events, hash);
      ok, categories, events, hash, chain :=
        DigestBucket(m, Word(m, buckets + 4 * i), expected, Bytes(m, manager + 0x30, 8),
                     categories, events, hash, Flatten(chains));
      if !ok {
        BucketFails(m, manager, base, chains, categories0, events0);
        return false, categories, events, hash, chains;
      }
      assert (chains + [chain])[..i] == chains;
      chains := chains + [chain];
      i := i + 1;
    }
    TalliedParts(m, date, Flatten(chains), categories, events, hash);
    valid := categories == expected;
    WholeCensus(m, manager, base, chains);
  }

  lemma TalliedParts(m: Memory, date: seq<byte>, vs: seq<Visit>, categories: nat, events: nat, hash: word64)
    requires Tallied(m, date, vs, categories, events, hash)
    ensures AllConsistent(m, vs) && categories == |vs| && events == Events(vs) <= MAX_EVENTS
  {}

  lemma NotCertified(m: Memory, manager: nat, base: nat)
    ensures !Layout(m, manager, base) ==> !exists all :: Certified(m, manager, base, all)
    ensures Layout(m, manager, base) ==>
              var buckets, count, expected := Word(m, manager + 0x10), Word(m, manager + 0x14), Word(m, manager + 0x18);
              count == 0 || count > MAX_BUCKETS || expected > 65536 || !Readable(m, buckets, (count + 1) * 4) ==>
                !exists all :: Certified(m, manager, base, all)
  {
    hide Word, Readable, Flatten, Events, Chained;
  }

  lemma {:induction false} FlattenConcat(a: seq<seq<Visit>>, b: seq<seq<Visit>>)
    ensures Flatten(a + b) == Flatten(a) + Flatten(b)
  {
    if b == [] {
      assert a + b == a;
    } else {
      assert (a + b)[..|a + b| - 1] == a + b[..|b| - 1];
      FlattenConcat(a, b[..|b| - 1]);
    }
  }

  /** The part of a census before one bucket, that bucket, and what follows. */
  lemma FlattenSplit(all: seq<seq<Visit>>, i: nat)
    requires i < |all|
    ensures Flatten(all) == Flatten(all[..i]) + all[i] + Flatten(all[i + 1..])
  {
    FlattenConcat(all[..i + 1], all[i + 1..]);
    FlattenLast(all[..i + 1]);
    hide Flatten;
    assert all == all[..i + 1] + all[i + 1..];
    assert all[..i + 1][..i] == all[..i];
  }

  lemma FlattenLast(all: seq<seq<Visit>>)
    requires all != []
    ensures Flatten(all) == Flatten(all[..|all| - 1]) + all[|all| - 1]
  {}

  lemma PartsConsistent(m: Memory, a: seq<Visit>, b: seq<Visit>, c: seq<Visit>)
    requires AllConsistent(m, a + b + c)
    ensures AllConsistent(m, a) && AllConsistent(m, b)
  {
    hide Consistent;
    forall i | 0 <= i < |a| ensures Consistent(m, a[i]) {
      assert (a + b + c)[i] == a[i];
    }
    forall i | 0 <= i < |b| ensures Consistent(m, b[i]) {
      assert (a + b + c)[|a| + i] == b[i];
    }
  }

  lemma BucketConsistent(m: Memory, all: seq<seq<Visit>>, k: nat)
    requires k < |all| && AllConsistent(m, Flatten(all))
    ensures AllConsistent(m, all[k])
  {
    hide Flatten, Consistent;
    FlattenSplit(all, k);
    PartsConsistent(m, Flatten(all[..k]), all[k], Flatten(all[k + 1..]));
  }

  /** Any census of the same container begins with the buckets already walked. */
  lemma SameBuckets(m: Memory, manager: nat, base: nat, chains: seq<seq<Visit>>, all: seq<seq<Visit>>)
    requires Certified(m, manager, base, all) && |chains| <= |all| && AllConsistent(m, Flatten(chains))
    requires forall k :: 0 <= k < |chains| ==> Chained(m, Word(m, Word(m, manager + 0x10) + 4 * k), chains[k], 0)
    ensures chains == all[..|chains|]
  {
    hide Word, Chained, Flatten, Consistent;
    forall k | 0 <= k < |chains| ensures chains[k] == all[k] {
      BucketConsistent(m, chains, k);
      BucketConsistent(m, all, k);
      WalkPrefix(m, Word(m, Word(m, manager + 0x10) + 4 * k), chains[k], 0, all[k]);
    }
  }

  lemma NextBucketFits(m: Memory, manager: nat, base: nat, chains: seq<seq<Visit>>, all: seq<seq<Visit>>)
    requires Certified(m, manager, base, all) && |chains| < |all| && AllConsistent(m, Flatten(chains))
    requires forall k :: 0 <= k < |chains| ==> Chained(m, Word(m, Word(m, manager + 0x10) + 4 * k), chains[k], 0)
    ensures var i := |chains|;
            Fits(m, Word(m, Word(m, manager + 0x10) + 4 * i), Word(m, manager + 0x18), |Flatten(chains)|,
                 Events(Flatten(chains)), all[i])
  {
    hide Word, Chained, Flatten, Consistent, Events;
    var i := |chains|;
    SameBuckets(m, manager, base, chains, all);
    FlattenSplit(all, i);
    var a, b, c := Flatten(all[..i]), all[i], Flatten(all[i + 1..]);
    PartsConsistent(m, a, b, c);
    EventsConcat(a + b, c);
    EventsConcat(a, b);
  }

  lemma BucketFails(m: Memory, manager: nat, base: nat, chains: seq<seq<Visit>>, categories: nat, events: nat)
    requires Layout(m, manager, base) && |chains| < Word(m, manager + 0x14)
    requires Readable(m, Word(m, manager + 0x10), (Word(m, manager + 0x14) + 1) * 4)
    requires forall k :: 0 <= k < |chains| ==> Chained(m, Word(m, Word(m, manager + 0x10) + 4 * k), chains[k], 0)
    requires AllConsistent(m, Flatten(chains)) && categories == |Flatten(chains)| && events == Events(Flatten(chains))
    requires Unfit(m, Word(m, Word(m, manager + 0x10) + 4 * |chains|), Word(m, manager + 0x18), categories, events)
    ensures !exists all :: Certified(m, manager, base, all)
  {
    hide Word, Chained, Flatten, Consistent, Events, Fits, Census;
    forall all | Certified(m, manager, base, all) ensures false {
      NextBucketFits(m, manager, base, chains, all);
    }
  }

  lemma WholeCensus(m: Memory, manager: nat, base: nat, chains: seq<seq<Visit>>)
    requires Layout(m, manager, base) && 0 < |chains| <= MAX_BUCKETS && |chains| == Word(m, manager + 0x14)
    requires Word(m, manager + 0x18) <= 65536 && Readable(m, Word(m, manager + 0x10), (|chains| + 1) * 4)
    requires forall k :: 0 <= k < |chains| ==> Chained(m, Word(m, Word(m, manager + 0x10) + 4 * k), chains[k], 0)
    requires AllConsistent(m, Flatten(chains)) && Events(Flatten(chains)) <= MAX_EVENTS
    ensures Certified(m, manager, base, chains) <==> |Flatten(chains)| == Word(m, manager + 0x18)
    ensures (exists all :: Certified(m, manager, base, all)) ==> Certified(m, manager, base, chains)
  {
    hide Word, Chained, Flatten, Consistent, Events;
    forall all | Certified(m, manager, base, all) ensures Certified(m, manager, base, chains) {
      SameBuckets(m, manager, base, chains, all);
      assert all[..|chains|] == all;
    }
  }

  /** A chain that ends at null holds no node twice: a repeated node would send the walk round for ever. */
  lemma {:induction false} ChainDistinct(m: Memory, head: nat, vs: seq<Visit>, i: nat, j: nat)
    requires Chained(m, head, vs, 0) && i < j < |vs|
    ensures vs[i].address != vs[j].address
  {
    if vs[i].address == vs[j].address {
      ChainSuffix(m, head, vs, i, j);
    }
  }

  lemma ChainNext(m: Memory, head: nat, vs: seq<Visit>, rest: nat, i: nat)
    requires Chained(m, head, vs, rest) && i < |vs|
    ensures Readable(m, vs[i].address, 0x14) && vs[i].address != 0
    ensures Word(m, vs[i].address + 0x10) == if i + 1 < |vs| then vs[i + 1].address else rest
    decreases |vs|
  {
    if i + 1 < |vs| {
      ChainNext(m, head, vs[..|vs| - 1], vs[|vs| - 1].address, i);
    }
  }

  lemma {:induction false} ChainSuffix(m: Memory, head: nat, vs: seq<Visit>, i: nat, j: nat)
    requires Chained(m, head, vs, 0) && i < j < |vs| && vs[i].address == vs[j].address
    ensures false
    decreases |vs| - j
  {
    ChainNext(m, head, vs, 0, i);
    ChainNext(m, head, vs, 0, j);
    if j + 1 < |vs| {
      ChainSuffix(m, head, vs, i + 1, j + 1);
    } else {
      ChainNext(m, head, vs, 0, i + 1);
    }
  }

  // ---- What the hash says about a history ----

  lemma {:induction false} SumRemove(cs: seq<Category>, i: nat)
    requires i < |cs|
    ensures Sum(cs) == Sum(cs[..i] + cs[i + 1..]) + HashBytes(BASIS, cs[i].Hashed())
    decreases |cs|
  {
    hide HashBytes, Category.Hashed;
    var n := |cs| - 1;
    if i == n {
      assert cs[..i] + cs[i + 1..] == cs[..n];
    } else {
      SumRemove(cs[..n], i);
      var without := cs[..i] + cs[i + 1..];
      assert without[..n - 1] == cs[..n][..i] + cs[..n][i + 1..];
    }
  }

  lemma Removed<T>(s: seq<T>, i: nat)
    requires i < |s|
    ensures multiset(s[..i] + s[i + 1..]) == multiset(s) - multiset{s[i]}
    ensures |s[..i] + s[i + 1..]| == |s| - 1
  {
    assert s == s[..i] + [s[i]] + s[i + 1..];
  }

  lemma Occurs<T>(a: seq<T>, b: seq<T>) returns (i: nat)
    requires multiset(a) == multiset(b) && a != []
    ensures i < |b| && b[i] == a[0]
  {
    assert a[0] in multiset(a);
    assert a[0] in b;
    i :| 0 <= i < |b| && b[i] == a[0];
  }

  lemma {:induction false} SumOfPermutation(a: seq<Category>, b: seq<Category>)
    requires multiset(a) == multiset(b)
    ensures Sum(a) == Sum(b)
    decreases |a|
  {
    hide HashBytes, Category.Hashed, Sum;
    if a == [] {
      assert |multiset(b)| == 0;
    } else {
      var i := Occurs(a, b);
      SumRemove(a, 0);
      SumRemove(b, i);
      Removed(a, 0);
      Removed(b, i);
      SumOfPermutation(a[..0] + a[1..], b[..i] + b[i + 1..]);
    }
  }

  /** Bucket placement does not matter: only the date and the collection of categories do. */
  lemma HashIgnoresPlacement(date: seq<byte>, a: seq<Category>, b: seq<Category>)
    requires multiset(a) == multiset(b)
    ensures HistoryHash(date, a) == HistoryHash(date, b)
  {
    SumOfPermutation(a, b);
  }

  lemma SumShift(a: nat, b: nat, rest: nat)
    requires a < MODULUS && b < MODULUS && (a + rest) % MODULUS == (b + rest) % MODULUS
    ensures a == b
  {
    var p, q := (a + rest) / MODULUS, (b + rest) / MODULUS;
    assert a - b == MODULUS * (p - q);
  }

  /** Two histories that differ in one byte of the date have different hashes. */
  lemma DateByteDecides(before: seq<byte>, b: byte, c: byte, after: seq<byte>, cs: seq<Category>)
    ensures HistoryHash(before + [b] + after, cs) == HistoryHash(before + [c] + after, cs) <==> b == c
  {
    hide HashBytes, Sum;
    OneByteDecides(BASIS, before, b, c, after);
    if HistoryHash(before + [b] + after, cs) == HistoryHash(before + [c] + after, cs) {
      SumShift(HashBytes(BASIS, before + [b] + after), HashBytes(BASIS, before + [c] + after), Sum(cs));
    }
  }

  /** Two histories whose categories differ in one byte of one of them have different hashes. */
  lemma CategoryByteDecides(date: seq<byte>, cs: seq<Category>, i: nat, changed: Category,
                            before: seq<byte>, b: byte, c: byte, after: seq<byte>)
    requires i < |cs| && cs[i].Hashed() == before + [b] + after && changed.Hashed() == before + [c] + after
    ensures HistoryHash(date, cs) == HistoryHash(date, cs[i := changed]) <==> b == c
  {
    hide HashBytes, Sum, Category.Hashed;
    var ds := cs[i := changed];
    SumRemove(cs, i);
    SumRemove(ds, i);
    assert ds[..i] + ds[i + 1..] == cs[..i] + cs[i + 1..];
    var rest := HashBytes(BASIS, date) + Sum(cs[..i] + cs[i + 1..]);
    OneByteDecides(BASIS, before, b, c, after);
    var x, y := HashBytes(BASIS, cs[i].Hashed()), HashBytes(BASIS, changed.Hashed());
    assert HistoryHash(date, cs) == (x + rest) % MODULUS && HistoryHash(date, ds) == (y + rest) % MODULUS;
    if HistoryHash(date, cs) == HistoryHash(date, ds) {
      SumShift(x, y, rest);
    }
  }

  /** Two entries that differ in one byte of the header or of the payload. */
  predicate OneByteApart(e: Entry, f: Entry, k: nat) {
    || (k < |e.header| == |f.header| && f == e.(header := e.header[k := f.header[k]]))
    || (k < |e.data| == |f.data| && f == e.(data := e.data[k := f.data[k]]))
  }

  lemma SplitAt(s: seq<byte>, k: nat, c: byte)
    requires k < |s|
    ensures s == s[..k] + [s[k]] + s[k + 1..] && s[k := c] == s[..k] + [c] + s[k + 1..]
  {}

  lemma Framed(a: seq<byte>, p: seq<byte>, b: byte, q: seq<byte>, z: seq<byte>)
    ensures a + (p + [b] + q) + z == (a + p) + [b] + (q + z)
  {}

  lemma HashedApart(e: Entry, f: Entry, k: nat) returns (p: seq<byte>, b: byte, c: byte, q: seq<byte>)
    requires OneByteApart(e, f, k)
    ensures e.Hashed() == p + [b] + q && f.Hashed() == p + [c] + q && (b == c <==> e == f)
  {
    hide Size32;
    var n := Size32(|e.data|);
    if k < |e.header| == |f.header| && f == e.(header := e.header[k := f.header[k]]) {
      b, c := e.header[k], f.header[k];
      SplitAt(e.header, k, c);
      Framed([], e.header[..k], b, e.header[k + 1..], n + e.data);
      Framed([], e.header[..k], c, e.header[k + 1..], n + e.data);
      p, q := [] + e.header[..k], e.header[k + 1..] + (n + e.data);
      assert e.Hashed() == [] + e.header + (n + e.data) && f.Hashed() == [] + f.header + (n + e.data);
    } else {
      b, c := e.data[k], f.data[k];
      SplitAt(e.data, k, c);
      Framed(e.header + n, e.data[..k], b, e.data[k + 1..], []);
      Framed(e.header + n, e.data[..k], c, e.data[k + 1..], []);
      p, q := e.header + n + e.data[..k], e.data[k + 1..] + [];
      assert e.Hashed() == e.header + n + e.data + [] && f.Hashed() == e.header + n + f.data + [];
    }
  }

  lemma {:induction false} EntryBytesSplit(es: seq<Entry>, j: nat)
    requires j < |es|
    ensures EntryBytes(es) == EntryBytes(es[..j]) + es[j].Hashed() + EntryBytes(es[j + 1..])
    decreases |es|
  {
    hide Entry.Hashed;
    var n := |es| - 1;
    if j < n {
      EntryBytesSplit(es[..n], j);
      assert es[..n][..j] == es[..j] && es[..n][j + 1..] == es[j + 1..][..n - j - 1];
      assert es[j + 1..][|es[j + 1..]| - 1] == es[n];
    } else {
      assert es[j + 1..] == [];
    }
  }

  lemma CategorySplit(c: Category, j: nat)
    requires j < |c.entries|
    ensures c.Hashed() == (c.key + EntryBytes(c.entries[..j])) + c.entries[j].Hashed() + EntryBytes(c.entries[j + 1..])
  {
    hide Entry.Hashed, EntryBytes;
    EntryBytesSplit(c.entries, j);
  }

  lemma ChangedCategory(c: Category, j: nat, f: Entry, k: nat)
    returns (before: seq<byte>, x: byte, y: byte, after: seq<byte>)
    requires j < |c.entries| && OneByteApart(c.entries[j], f, k)
    ensures c.Hashed() == before + [x] + after
    ensures c.(entries := c.entries[j := f]).Hashed() == before + [y] + after
    ensures x == y <==> c.entries[j] == f
  {
    hide Entry.Hashed, EntryBytes, OneByteApart, Category.Hashed;
    var d := c.(entries := c.entries[j := f]);
    var p, q;
    p, x, y, q := HashedApart(c.entries[j], f, k);
    CategorySplit(c, j);
    CategorySplit(d, j);
    assert d.entries[..j] == c.entries[..j] && d.entries[j + 1..] == c.entries[j + 1..];
    var front, back := c.key + EntryBytes(c.entries[..j]), EntryBytes(c.entries[j + 1..]);
    Framed(front, p, x, q, back);
    Framed(front, p, y, q, back);
    before, after := front + p, q + back;
  }

  /** One byte of one entry decides the hash of the whole history. */
  lemma EntryByteDecides(date: seq<byte>, cs: seq<Category>, i: nat, j: nat, f: Entry, k: nat)
    requires i < |cs| && j < |cs[i].entries| && OneByteApart(cs[i].entries[j], f, k)
    ensures var changed := cs[i].(entries := cs[i].entries[j := f]);
            HistoryHash(date, cs) == HistoryHash(date, cs[i := changed]) <==> f == cs[i].entries[j]
  {
    hide Category.Hashed, HistoryHash, OneByteApart;
    var before, x, y, after := ChangedCategory(cs[i], j, f, k);
    CategoryByteDecides(date, cs, i, cs[i].(entries := cs[i].entries[j := f]), before, x, y, after);
  }

  // ---- The event count ----

  function EntryCount(cs: seq<Category>): nat {
    if cs == [] then 0 else EntryCount(cs[..|cs| - 1]) + |cs[|cs| - 1].entries|
  }

  lemma {:induction false} EventsAreEntries(m: Memory, vs: seq<Visit>)
    requires AllConsistent(m, vs)
    ensures Events(vs) == EntryCount(Categories(m, vs))
  {
    hide Consistent;
    if vs != [] {
      var n := |vs| - 1;
      ConsistentParts(m, vs[n]);
      EventsAreEntries(m, vs[..n]);
      var cs := Categories(m, vs);
      assert cs[..n] == Categories(m, vs[..n]) && |cs[n].entries| == |vs[n].links|;
    }
  }

  lemma CountStep(front: seq<Category>, c: Category)
    ensures EntryCount(front + [c]) == EntryCount(front) + |c.entries|
  {
    assert (front + [c])[..|front|] == front;
  }

  lemma {:induction false} CountRemove(cs: seq<Category>, i: nat)
    requires i < |cs|
    ensures EntryCount(cs) == EntryCount(cs[..i] + cs[i + 1..]) + |cs[i].entries|
    decreases |cs|
  {
    hide EntryCount;
    var n := |cs| - 1;
    var front, last := cs[..n], cs[n];
    CountStep(front, last);
    assert cs == front + [last];
    if i == n {
      assert cs[..i] + cs[i + 1..] == front;
    } else {
      CountRemove(front, i);
      CountStep(front[..i] + front[i + 1..], last);
      assert cs[..i] + cs[i + 1..] == front[..i] + front[i + 1..] + [last];
    }
  }

  lemma {:induction false} CountOfPermutation(a: seq<Category>, b: seq<Category>)
    requires multiset(a) == multiset(b)
    ensures EntryCount(a) == EntryCount(b)
    decreases |a|
  {
    hide EntryCount;
    if a == [] {
      assert |multiset(b)| == 0;
    } else {
      var i := Occurs(a, b);
      CountRemove(a, 0);
      CountRemove(b, i);
      Removed(a, 0);
      Removed(b, i);
      CountOfPermutation(a[..0] + a[1..], b[..i] + b[i + 1..]);
    }
  }

  /** Two censuses of containers with the same date and the same categories, wherever they are, compare as the same. */
  lemma PlacementInvisible(m: Memory, vs: seq<Visit>, n: Memory, ws: seq<Visit>, date: seq<byte>,
                           categories: nat, events: nat, g: word64, others: nat, happened: nat, h: word64)
    requires Tallied(m, date, vs, categories, events, g) && Tallied(n, date, ws, others, happened, h)
    requires multiset(Categories(m, vs)) == multiset(Categories(n, ws))
    ensures categories == others && events == happened && g == h
  {
    hide Consistent, HistoryHash, EntryCount;
    HashIgnoresPlacement(date, Categories(m, vs), Categories(n, ws));
    assert |multiset(Categories(m, vs))| == |vs| && |multiset(Categories(n, ws))| == |ws|;
    EventsAreEntries(m, vs);
    EventsAreEntries(n, ws);
    CountOfPermutation(Categories(m, vs), Categories(n, ws));
  }
}
