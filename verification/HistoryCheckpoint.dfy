/** The history words of a native checkpoint (src/bridge/native_history_context.cpp, src/network/history_wire.h). */
module HistoryCheckpoint {
  import opened Basics
  import opened Words

  const CAPACITY := 8
  const ENTRY := 15
  const ALL := 3 + ENTRY * CAPACITY

  type Header = s: seq<word> | |s| == 3 witness [0, 0, 0]

  type Data = s: seq<word> | |s| == 12 witness [0, 0, 0, 0, 0, 0, 0, 0, 0, 0, 0, 0]

  datatype Entry = Entry(header: Header, data: Data)

  type Entries = s: seq<Entry> | |s| == CAPACITY
    witness [NO_ENTRY, NO_ENTRY, NO_ENTRY, NO_ENTRY, NO_ENTRY, NO_ENTRY, NO_ENTRY, NO_ENTRY]

  datatype History = History(date: (word, word), count: word, entries: Entries)

  const NO_ENTRY := Entry(Zeros(3), Zeros(12))

  predicate ValidEntry(e: Entry) {
    && e.header[2] == 0 && e.data[1] != 0 && e.data[2] != 0 && e.data[3] != 0 && e.data[4] == 5 && e.data[6] == 1
    && 1 <= e.data[7] <= 3 && e.data[8] == 1 && e.data[10] <= 1 && Finite(e.data[11])
  }

  predicate Valid(h: History) {
    && h.count <= CAPACITY
    && forall i :: 0 <= i < CAPACITY ==> if i < h.count then ValidEntry(h.entries[i]) else h.entries[i] == NO_ENTRY
  }

  function Stored(count: nat): nat {
    if count == 0 then 1 else count
  }

  /** Date and count, then fifteen words for each entry and never fewer than fifteen. */
  function WordCount(count: nat): nat {
    3 + ENTRY * Stored(count)
  }

  function EntryWords(es: seq<Entry>): (s: seq<word>)
    ensures |s| == ENTRY * |es|
  {
    if es == [] then [] else EntryWords(es[..|es| - 1]) + es[|es| - 1].header + es[|es| - 1].data
  }

  function AllWords(h: History): (s: seq<word>)
    ensures |s| == ALL
  {
    [h.date.0, h.date.1, h.count] + EntryWords(h.entries)
  }

  /** What a checkpoint of this history appends to its stream. */
  function Written(h: History): (s: seq<word>)
    requires h.count <= CAPACITY
    ensures |s| == WordCount(h.count)
  {
    AllWords(h)[..WordCount(h.count)]
  }

  lemma NoEntryWords(es: seq<Entry>)
    ensures EntryWords(es[..0]) == []
  {}

  lemma EntryWordsStep(lead: seq<word>, es: seq<Entry>, e: nat)
    requires e < |es|
    ensures lead + EntryWords(es[..e + 1]) == lead + EntryWords(es[..e]) + es[e].header + es[e].data
  {
    assert es[..e + 1][..e] == es[..e];
  }

  method PutEntry(words: array<word>, e: nat, entry: Entry)
    requires words.Length == ALL && e < CAPACITY
    modifies words
    ensures words[..3 + ENTRY * (e + 1)] == old(words[..3 + ENTRY * e]) + entry.header + entry.data
  {
    var at := 3 + ENTRY * e;
    for i := 0 to 3
      invariant words[..at] == old(words[..at])
      invariant forall k :: 0 <= k < i ==> words[at + k] == entry.header[k]
    {
      words[at + i] := entry.header[i];
    }
    for i := 0 to 12
      invariant words[..at] == old(words[..at])
      invariant forall k :: 0 <= k < 3 ==> words[at + k] == entry.header[k]
      invariant forall k :: 0 <= k < i ==> words[at + 3 + k] == entry.data[k]
    {
      words[at + 3 + i] := entry.data[i];
    }
    assert words[at..at + 3] == entry.header && words[at + 3..at + ENTRY] == entry.data;
    assert words[..at + ENTRY] == words[..at] + words[at..at + 3] + words[at + 3..at + ENTRY];
  }

  method CheckpointWords(h: History) returns (words: array<word>)
    ensures fresh(words) && words[..] == AllWords(h)
  {
    hide EntryWords;
    words := new word[ALL](_ => 0);
    words[0], words[1], words[2] := h.date.0, h.date.1, h.count;
    ghost var lead := [h.date.0, h.date.1, h.count];
    assert words[..3] == lead;
    NoEntryWords(h.entries);
    for e := 0 to CAPACITY
      invariant words[..3 + ENTRY * e] == lead + EntryWords(h.entries[..e])
    {
      EntryWordsStep(lead, h.entries, e);
      PutEntry(words, e, h.entries[e]);
    }
    assert h.entries[..CAPACITY] == h.entries && words[..ALL] == words[..];
  }

  method CheckpointState(words: seq<word>) returns (h: History)
    requires |words| == ALL
    ensures AllWords(h) == words
  {
    var entries: seq<Entry> := [];
    for e := 0 to CAPACITY
      invariant |entries| == e && EntryWords(entries) == words[3..3 + ENTRY * e]
    {
      var header, data := words[3 + ENTRY * e..6 + ENTRY * e], words[6 + ENTRY * e..18 + ENTRY * e];
      assert (entries + [Entry(header, data)])[..e] == entries;
      assert words[3..3 + ENTRY * (e + 1)] == words[3..3 + ENTRY * e] + header + data;
      entries := entries + [Entry(header, data)];
    }
    h := History((words[0], words[1]), words[2], entries);
    assert words == [words[0], words[1], words[2]] + words[3..ALL];
  }

  // ---- Entries and words ----

  lemma {:induction false} EntryWordsSplit(a: seq<Entry>, b: seq<Entry>)
    ensures EntryWords(a + b) == EntryWords(a) + EntryWords(b)
  {
    if b == [] {
      assert a + b == a;
    } else {
      assert (a + b)[..|a + b| - 1] == a + b[..|b| - 1];
      EntryWordsSplit(a, b[..|b| - 1]);
    }
  }

  lemma LastEntry(a: seq<Entry>)
    requires a != []
    ensures var n, w := |a| - 1, EntryWords(a);
            && EntryWords(a[..n]) == w[..ENTRY * n]
            && a[n].header == w[ENTRY * n..ENTRY * n + 3] && a[n].data == w[ENTRY * n + 3..]
  {
    var n := |a| - 1;
    ThreeParts(EntryWords(a[..n]), a[n].header, a[n].data);
  }

  lemma ThreeParts(x: seq<word>, y: seq<word>, z: seq<word>)
    ensures var w := x + y + z;
            w[..|x|] == x && w[|x|..|x| + |y|] == y && w[|x| + |y|..] == z
  {}

  lemma {:induction false} EntryWordsInjective(a: seq<Entry>, b: seq<Entry>)
    requires EntryWords(a) == EntryWords(b)
    ensures a == b
    decreases |a|
  {
    hide EntryWords;
    if a != [] {
      var n := |a| - 1;
      LastEntry(a);
      LastEntry(b);
      EntryWordsInjective(a[..n], b[..n]);
      assert a == a[..n] + [a[n]] && b == b[..n] + [b[n]];
    }
  }

  lemma AllWordsInjective(g: History, h: History)
    requires AllWords(g) == AllWords(h)
    ensures g == h
  {
    hide EntryWords;
    assert AllWords(g)[0] == g.date.0 && AllWords(g)[1] == g.date.1 && AllWords(g)[2] == g.count;
    assert AllWords(h)[0] == h.date.0 && AllWords(h)[1] == h.date.1 && AllWords(h)[2] == h.count;
    assert AllWords(g)[3..] == EntryWords(g.entries) && AllWords(h)[3..] == EntryWords(h.entries);
    EntryWordsInjective(g.entries, h.entries);
  }

  predicate Blank(es: seq<Entry>) {
    forall i :: 0 <= i < |es| ==> es[i] == NO_ENTRY
  }

  lemma {:induction false} BlankWords(es: seq<Entry>)
    ensures EntryWords(es) == Zeros(ENTRY * |es|) <==> Blank(es)
  {
    var n := |es|;
    if n > 0 {
      BlankWords(es[..n - 1]);
      var w, v, x := EntryWords(es), EntryWords(es[..n - 1]), es[n - 1];
      assert w == v + x.header + x.data;
      assert v == w[..ENTRY * (n - 1)] && x.header == w[ENTRY * (n - 1)..ENTRY * (n - 1) + 3]
          && x.data == w[ENTRY * (n - 1) + 3..];
      if Blank(es) {
        assert x == NO_ENTRY;
      }
      if w == Zeros(ENTRY * n) {
        assert x.header == Zeros(3) && x.data == Zeros(12);
      }
    }
  }

  // ---- The stream ----

  /** Reads eighteen words, then the rest when there is more than one entry. The words not read stay zero. */
  method ReadWords(stream: seq<word>) returns (words: Option<seq<word>>, rest: seq<word>)
    ensures words.Some? <==> |stream| >= 18 && stream[2] <= CAPACITY && |stream| >= WordCount(stream[2])
    ensures words.Some? ==>
              && |words.value| == ALL && words.value[2] == stream[2]
              && words.value == stream[..WordCount(stream[2])] + Zeros(ALL - WordCount(stream[2]))
              && rest == stream[WordCount(stream[2])..]
  {
    rest := stream;
    if |stream| < 18 {
      return None, rest;
    }
    var buffer := stream[..18] + Zeros(ALL - 18);
    rest := stream[18..];
    var count := buffer[2];
    if count > CAPACITY {
      return None, rest;
    }
    if count > 1 {
      var more := WordCount(count) - 18;
      if |rest| < more {
        return None, rest;
      }
      buffer := buffer[..18] + rest[..more] + Zeros(ALL - 18 - more);
      rest := rest[more..];
    }
    return Some(buffer), rest;
  }

  /** Reads a history and leaves the stream behind it; None when it is refused. */
  method ReadHistory(stream: seq<word>) returns (h: Option<History>, rest: seq<word>)
    ensures h.Some? ==> Valid(h.value) && stream == Written(h.value) + rest
    ensures h.None? ==> !exists g: History, more: seq<word> :: Valid(g) && stream == Written(g) + more
  {
    var words;
    words, rest := ReadWords(stream);
    if words.None? {
      forall g: History, more: seq<word> | Valid(g) && stream == Written(g) + more ensures false {
        WrittenReadable(g, more);
      }
      return None, rest;
    }
    var found := CheckpointState(words.value);
    if !Valid(found) {
      forall g: History, more: seq<word> | Valid(g) && stream == Written(g) + more ensures false {
        WrittenReadable(g, more);
        WrittenPadded(g, stream[..WordCount(g.count)]);
        AllWordsInjective(g, found);
      }
      return None, rest;
    }
    CountWord(found);
    assert Written(found) == stream[..WordCount(found.count)];
    return Some(found), rest;
  }

  lemma CountWord(h: History)
    ensures AllWords(h)[2] == h.count
  {}

  lemma WrittenReadable(g: History, more: seq<word>)
    requires g.count <= CAPACITY
    ensures var stream := Written(g) + more;
            && |stream| >= WordCount(g.count) >= 18 && stream[2] == g.count
            && stream[..WordCount(g.count)] == Written(g)
  {
    hide EntryWords;
  }

  lemma WrittenSplit(h: History)
    requires h.count <= CAPACITY
    ensures AllWords(h) == Written(h) + EntryWords(h.entries[Stored(h.count)..])
  {
    var n := Stored(h.count);
    var front, back := h.entries[..n], h.entries[n..];
    EntryWordsSplit(front, back);
    hide EntryWords;
    assert h.entries == front + back;
    var lead := [h.date.0, h.date.1, h.count];
    assert AllWords(h) == (lead + EntryWords(front)) + EntryWords(back);
    assert Written(h) == lead + EntryWords(front);
  }

  /** The words left out of a checkpoint are zero exactly when the entries left out are. */
  lemma LeftOut(h: History)
    requires h.count <= CAPACITY
    ensures AllWords(h) == Written(h) + Zeros(ALL - WordCount(h.count)) <==> Blank(h.entries[Stored(h.count)..])
  {
    WrittenSplit(h);
    BlankWords(h.entries[Stored(h.count)..]);
    hide EntryWords, Blank, AllWords;
    SameTail(Written(h), EntryWords(h.entries[Stored(h.count)..]), Zeros(ALL - WordCount(h.count)));
  }

  lemma SameTail(a: seq<word>, b: seq<word>, c: seq<word>)
    ensures a + b == a + c <==> b == c
  {
    if a + b == a + c {
      assert b == (a + b)[|a|..] && c == (a + c)[|a|..];
    }
  }

  lemma WrittenPadded(g: History, prefix: seq<word>)
    requires Valid(g) && prefix == Written(g)
    ensures prefix + Zeros(ALL - WordCount(g.count)) == AllWords(g)
  {
    LeftOut(g);
  }

  /**
    Padding what was written for a history decodes to that history exactly when its entries from the stored ones on
    are blank, for every count; counts zero and one store the same eighteen words.
  */
  lemma StateReturned(h: History, back: History)
    requires h.count <= CAPACITY && AllWords(back) == Written(h) + Zeros(ALL - WordCount(h.count))
    ensures back == h <==> Blank(h.entries[Stored(h.count)..])
    ensures h.count <= 1 ==> |Written(h)| == 18
  {
    LeftOut(h);
    if AllWords(back) == AllWords(h) {
      AllWordsInjective(back, h);
    }
  }

  /** Two histories are told apart by what a checkpoint writes, whatever follows. */
  lemma WrittenDecides(g: History, h: History, a: seq<word>, b: seq<word>)
    requires Valid(g) && Valid(h) && Written(g) + a == Written(h) + b
    ensures g == h && a == b
  {
    WrittenReadable(g, a);
    WrittenReadable(h, b);
    WrittenPadded(g, Written(g));
    WrittenPadded(h, Written(h));
    AllWordsInjective(g, h);
    assert a == (Written(g) + a)[WordCount(g.count)..] && b == (Written(h) + b)[WordCount(h.count)..];
  }
}
