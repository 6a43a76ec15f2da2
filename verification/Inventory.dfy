/**
  The projection of a player's inventory (src/bridge/native_inventory.cpp, src/network/inventory_wire.h): what the
  original holds is captured into a complete state, and a state is applied to what the original holds.
*/
module Inventory {
  import opened Basics
  import opened Words

  const CAPACITY := 1024
  const NO_INDEX: word := 0xffff_ffff
  const MAX_POINTS := 0x7fff_ffff

  datatype Key = Key(instance: word, group: word) {
    /** The order of keys. */
    function Number(): nat {
      var g: nat, i: nat := group, instance;
      g * 0x1_0000_0000 + i
    }
  }

  datatype Item = Item(instance: word, group: word, status: word, index: word) {
    function Id(): Key {
      Key(instance, group)
    }

    predicate Unlocked() {
      status % 2 == 1
    }
  }

  datatype State = State(points: word, group: word, items: seq<Item>)

  /** The original's own containers: a status for each part, and the unlocked parts in order. */
  datatype Items = Items(points: int32, group: word, statuses: map<Key, byte>, unlocked: seq<Key>)

  lemma NumberInjective(a: Key, b: Key)
    requires a.Number() == b.Number()
    ensures a == b
  {}

  // ---- Valid states ----

  predicate ValidItem(item: Item, total: nat) {
    && item.instance != 0 && item.group != 0 && item.status <= 7
    && if item.Unlocked() then item.index < total else item.index == NO_INDEX
  }

  predicate Sorted(items: seq<Item>) {
    forall i, j :: 0 <= i < j < |items| ==> items[i].Id().Number() < items[j].Id().Number()
  }

  /** The indices of the unlocked rows. */
  function Order(items: seq<Item>): set<nat> {
    set i | 0 <= i < |items| && items[i].Unlocked() :: items[i].index as nat
  }

  predicate Distinct(items: seq<Item>) {
    forall i, j :: 0 <= i < j < |items| && items[i].Unlocked() && items[j].Unlocked() ==>
      items[i].index != items[j].index
  }

  /** Empty, or a set whose least element is zero and whose greatest is one less than its size. */
  predicate Dense(order: set<nat>) {
    order == {} || (0 in order && |order| - 1 in order && forall x :: x in order ==> x <= |order| - 1)
  }

  predicate Valid(s: State) {
    && 0 < |s.items| <= CAPACITY && s.points <= MAX_POINTS
    && (forall i :: 0 <= i < |s.items| ==> ValidItem(s.items[i], |s.items|))
    && Sorted(s.items) && Distinct(s.items) && Dense(Order(s.items))
  }

  // ---- Capture ----

  predicate NoRepeat(keys: seq<Key>) {
    forall i, j :: 0 <= i < j < |keys| ==> keys[i] != keys[j]
  }

  /** Where this key stands in the unlocked list. */
  predicate Position(keys: seq<Key>, key: Key, index: word) {
    if index == NO_INDEX then key !in keys else index < |keys| && keys[index] == key
  }

  predicate RowOf(n: Items, row: Item) {
    row.Id() in n.statuses && row.status == n.statuses[row.Id()] && Position(n.unlocked, row.Id(), row.index)
  }

  function CountUnlocked(items: seq<Item>): nat {
    if items == [] then 0 else CountUnlocked(items[..|items| - 1]) + if items[|items| - 1].Unlocked() then 1 else 0
  }

  /** The state a successful capture gives. */
  predicate Captured(n: Items, s: State) {
    && n.statuses != map[] && |n.statuses| <= CAPACITY && |n.unlocked| <= CAPACITY && n.points >= 0
    && NoRepeat(n.unlocked)
    && s.points == n.points && s.group == n.group
    && |s.items| == |n.statuses| && Sorted(s.items)
    && (forall i :: 0 <= i < |s.items| ==> RowOf(n, s.items[i]))
    && Valid(s) && |n.unlocked| == CountUnlocked(s.items)
  }

  // ---- Apply ----

  predicate Accepts(allowed: bool, n: Items, s: State) {
    && allowed && n.group == s.group && |n.statuses| == |s.items|
    && forall i :: 0 <= i < |s.items| ==> s.items[i].Id() in n.statuses
  }

  /** Keys by index; of two rows with one index the first stays. */
  function ByIndex(items: seq<Item>): (m: map<nat, Key>)
    ensures m.Keys == Order(items)
  {
    if items == [] then map[]
    else
      var front, row := items[..|items| - 1], items[|items| - 1];
      var m := ByIndex(front);
      assert items == front + [row];
      if row.Unlocked() && row.index !in m then m[row.index := row.Id()] else m
  }

  function Overwrite(statuses: map<Key, byte>, items: seq<Item>): map<Key, byte>
    requires forall i :: 0 <= i < |items| ==> items[i].Id() in statuses
  {
    if items == [] then statuses
    else
      var row := items[|items| - 1];
      Overwrite(statuses, items[..|items| - 1])[row.Id() := row.status % 256]
  }

  /** The elements in ascending order. */
  ghost predicate Ascending(s: seq<nat>, all: set<nat>) {
    && |s| == |all| && (forall i :: 0 <= i < |s| ==> s[i] in all)
    && (forall i, j :: 0 <= i < j < |s| ==> s[i] < s[j])
  }

  /** The unlocked list of a state: its unlocked keys in the order of their indices. */
  ghost predicate Listed(keys: seq<Key>, m: map<nat, Key>) {
    exists order: seq<nat> ::
      && Ascending(order, m.Keys) && |keys| == |order|
      && forall i :: 0 <= i < |keys| ==> order[i] in m && keys[i] == m[order[i]]
  }

  ghost predicate Applied(n: Items, s: State, after: Items)
    requires forall i :: 0 <= i < |s.items| ==> s.items[i].Id() in n.statuses
  {
    && after.group == n.group && after.points == Signed(s.points)
    && after.statuses == Overwrite(n.statuses, s.items)
    && Listed(after.unlocked, ByIndex(s.items))
  }

  // ---- Set theory ----

  function Below(n: nat): (s: set<nat>)
    ensures |s| == n && forall x: nat :: x in s <==> x < n
  {
    if n == 0 then {} else Below(n - 1) + {n - 1}
  }

  /** A dense set is an initial segment. */
  lemma DenseIsSegment(order: set<nat>)
    requires Dense(order)
    ensures order == Below(|order|)
  {
    SubsetSize(order, Below(|order|));
  }

  /** Ascending through an initial segment is counting. */
  lemma {:induction false} AscendingSegment(s: seq<nat>, n: nat, i: nat)
    requires Ascending(s, Below(n)) && i < n
    ensures s[i] == i
  {
    AtLeast(s, n, i);
    AtMost(s, n, i);
  }

  lemma {:induction false} AtLeast(s: seq<nat>, n: nat, i: nat)
    requires Ascending(s, Below(n)) && i < n
    ensures s[i] >= i
  {
    if i > 0 {
      AtLeast(s, n, i - 1);
    }
  }

  lemma {:induction false} AtMost(s: seq<nat>, n: nat, i: nat)
    requires Ascending(s, Below(n)) && i < n
    ensures s[i] <= i
    decreases n - i
  {
    if i + 1 < n {
      AtMost(s, n, i + 1);
    }
  }

  // ---- Round trip ----

  lemma {:induction false} ByIndexFinds(items: seq<Item>, i: nat)
    requires Distinct(items) && i < |items| && items[i].Unlocked()
    ensures items[i].index in ByIndex(items) && ByIndex(items)[items[i].index] == items[i].Id()
    decreases |items|
  {
    var n := |items| - 1;
    if i < n {
      ByIndexFinds(items[..n], i);
    } else {
      assert items[n].index !in Order(items[..n]);
    }
  }

  lemma {:induction false} OverwriteFinds(statuses: map<Key, byte>, items: seq<Item>, i: nat)
    requires Sorted(items) && i < |items| && forall k :: 0 <= k < |items| ==> items[k].Id() in statuses
    ensures Overwrite(statuses, items).Keys == statuses.Keys
    ensures Overwrite(statuses, items)[items[i].Id()] == items[i].status % 256
    decreases |items|
  {
    var n := |items| - 1;
    OverwriteKeys(statuses, items[..n]);
    if i < n {
      OverwriteFinds(statuses, items[..n], i);
      assert items[i].Id() != items[n].Id();
    }
  }

  lemma {:induction false} OverwriteKeys(statuses: map<Key, byte>, items: seq<Item>)
    requires forall k :: 0 <= k < |items| ==> items[k].Id() in statuses
    ensures Overwrite(statuses, items).Keys == statuses.Keys
  {
    if items != [] {
      OverwriteKeys(statuses, items[..|items| - 1]);
    }
  }

  lemma OrderStep(items: seq<Item>)
    requires Distinct(items) && items != []
    ensures var n := |items| - 1;
            var before := Order(items[..n]);
            && Distinct(items[..n])
            && Order(items) == (if items[n].Unlocked() then before + {items[n].index as nat} else before)
            && (items[n].Unlocked() ==> items[n].index !in before)
  {
    var n := |items| - 1;
    assert items == items[..n] + [items[n]];
  }

  lemma {:induction false} CountIsOrder(items: seq<Item>)
    requires Distinct(items)
    ensures CountUnlocked(items) == |Order(items)|
  {
    if items == [] {
      assert Order([]) == {};
    } else {
      OrderStep(items);
      hide Order, Distinct;
      CountIsOrder(items[..|items| - 1]);
    }
  }

  /** After applying a valid state, each unlocked row stands at its index, and nothing else is listed. */
  lemma ListedPositions(s: State, keys: seq<Key>)
    requires Valid(s) && Listed(keys, ByIndex(s.items))
    ensures |keys| == CountUnlocked(s.items)
    ensures forall i :: 0 <= i < |s.items| ==> Position(keys, s.items[i].Id(), s.items[i].index)
    ensures NoRepeat(keys)
  {
    var m := ByIndex(s.items);
    var order :| Ascending(order, m.Keys) && |keys| == |order|
                 && forall i :: 0 <= i < |keys| ==> order[i] in m && keys[i] == m[order[i]];
    DenseIsSegment(m.Keys);
    CountIsOrder(s.items);
    forall i | 0 <= i < |keys| ensures i in m && keys[i] == m[i] {
      AscendingSegment(order, |keys|, i);
    }
    Positions(s, keys);
  }

  /** Entry k of the list is the key of the row whose index is k. */
  lemma RowAt(s: State, keys: seq<Key>, k: nat) returns (i: nat)
    requires Valid(s) && k < |keys|
    requires forall j :: 0 <= j < |keys| ==> j in ByIndex(s.items) && keys[j] == ByIndex(s.items)[j]
    ensures i < |s.items| && s.items[i].Unlocked() && s.items[i].index == k && keys[k] == s.items[i].Id()
  {
    assert k in ByIndex(s.items).Keys;
    i :| 0 <= i < |s.items| && s.items[i].Unlocked() && s.items[i].index == k;
    ByIndexFinds(s.items, i);
  }

  lemma Positions(s: State, keys: seq<Key>)
    requires Valid(s) && Order(s.items) == Below(|keys|)
    requires forall j :: 0 <= j < |keys| ==> j in ByIndex(s.items) && keys[j] == ByIndex(s.items)[j]
    ensures NoRepeat(keys)
    ensures forall i :: 0 <= i < |s.items| ==> Position(keys, s.items[i].Id(), s.items[i].index)
  {
    hide Valid, ByIndex, Order, Position;
    forall i, j | 0 <= i < j < |keys| ensures keys[i] != keys[j] {
      var a := RowAt(s, keys, i);
      var b := RowAt(s, keys, j);
      DifferentRows(s, a, b);
    }
    forall i | 0 <= i < |s.items| ensures Position(keys, s.items[i].Id(), s.items[i].index) {
      RowPosition(s, keys, i);
    }
  }

  lemma DifferentRows(s: State, a: nat, b: nat)
    requires Valid(s) && a < |s.items| && b < |s.items|
    ensures s.items[a].Id() == s.items[b].Id() ==> a == b
  {}

  lemma RowPosition(s: State, keys: seq<Key>, i: nat)
    requires Valid(s) && Order(s.items) == Below(|keys|) && i < |s.items|
    requires forall j :: 0 <= j < |keys| ==> j in ByIndex(s.items) && keys[j] == ByIndex(s.items)[j]
    ensures Position(keys, s.items[i].Id(), s.items[i].index)
  {
    ValidRow(s, i);
    if s.items[i].Unlocked() {
      UnlockedRow(s, i);
      hide Valid, ByIndex, Order;
    } else {
      LockedRow(s, keys, i);
      hide *;
      AbsentPosition(keys, s.items[i].Id());
    }
  }

  lemma AbsentPosition(keys: seq<Key>, key: Key)
    requires key !in keys
    ensures Position(keys, key, NO_INDEX)
  {}

  lemma LockedRow(s: State, keys: seq<Key>, i: nat)
    requires Valid(s) && i < |s.items| && !s.items[i].Unlocked()
    requires forall j :: 0 <= j < |keys| ==> j in ByIndex(s.items) && keys[j] == ByIndex(s.items)[j]
    ensures s.items[i].Id() !in keys && s.items[i].index == NO_INDEX
  {
    ValidRow(s, i);
    hide Valid, ByIndex, Order;
    forall k | 0 <= k < |keys| ensures keys[k] != s.items[i].Id() {
      var a := RowAt(s, keys, k);
      DifferentRows(s, a, i);
    }
  }

  lemma ValidRow(s: State, i: nat)
    requires Valid(s) && i < |s.items|
    ensures ValidItem(s.items[i], |s.items|) && |s.items| < NO_INDEX
  {}

  lemma UnlockedRow(s: State, i: nat)
    requires Valid(s) && i < |s.items| && s.items[i].Unlocked()
    ensures var k: nat := s.items[i].index;
            k in Order(s.items) && k in ByIndex(s.items) && ByIndex(s.items)[k] == s.items[i].Id()
  {
    hide ByIndex;
    ByIndexFinds(s.items, i);
  }

  /** Applying a state and capturing again gives that state exactly when the state is valid. */
  lemma ApplyThenCapture(n: Items, s: State, after: Items)
    requires Accepts(true, n, s) && Applied(n, s, after)
    ensures Captured(after, s) <==> Valid(s)
  {
    hide Overwrite, ByIndex, Listed, CountUnlocked, Order, Distinct, Dense;
    if Valid(s) {
      OverwriteKeys(n.statuses, s.items);
      ListedPositions(s, after.unlocked);
      forall i | 0 <= i < |s.items| ensures RowOf(after, s.items[i]) {
        assert ValidItem(s.items[i], |s.items|);
        OverwriteFinds(n.statuses, s.items, i);
      }
      CountBound(s.items);
      assert |after.statuses| == |after.statuses.Keys| == |n.statuses.Keys|;
    }
  }

  lemma {:induction false} CountBound(items: seq<Item>)
    ensures CountUnlocked(items) <= |items|
  {
    if items != [] {
      CountBound(items[..|items| - 1]);
    }
  }

  // ---- One capture only ----

  function Ids(items: seq<Item>): (ids: set<Key>)
  {
    set i | 0 <= i < |items| :: items[i].Id()
  }

  lemma IdsStep(items: seq<Item>)
    requires Sorted(items) && items != []
    ensures var n := |items| - 1;
            && Ids(items) == Ids(items[..n]) + {items[n].Id()} && items[n].Id() !in Ids(items[..n])
            && forall key :: key in Ids(items) ==> key.Number() <= items[n].Id().Number()
  {
    var n := |items| - 1;
    assert items == items[..n] + [items[n]];
  }

  lemma {:induction false} IdsSize(items: seq<Item>)
    requires Sorted(items)
    ensures |Ids(items)| == |items|
  {
    if items != [] {
      IdsStep(items);
      IdsSize(items[..|items| - 1]);
    }
  }

  /** Two ascending lists of rows over the same keys have the same keys in the same places. */
  lemma {:induction false} SameOrder(a: seq<Item>, b: seq<Item>, i: nat)
    requires Sorted(a) && Sorted(b) && Ids(a) == Ids(b) && |a| == |b| && i < |a|
    ensures a[i].Id() == b[i].Id()
    decreases |a|
  {
    var n := |a| - 1;
    IdsStep(a);
    IdsStep(b);
    hide Ids, Sorted, Item.Id;
    NumberInjective(a[n].Id(), b[n].Id());
    if i < n {
      SortedPrefix(a, n);
      SortedPrefix(b, n);
      assert Ids(a[..n]) == Ids(a) - {a[n].Id()} && Ids(b[..n]) == Ids(b) - {b[n].Id()};
      SameOrder(a[..n], b[..n], i);
    }
  }

  lemma SortedPrefix(items: seq<Item>, n: nat)
    requires Sorted(items) && n <= |items|
    ensures Sorted(items[..n])
  {}

  /** The rows of a captured state are exactly the parts that have a status. */
  lemma CapturedIds(n: Items, s: State)
    requires Captured(n, s)
    ensures Ids(s.items) == n.statuses.Keys
  {
    hide Valid, CountUnlocked, Position;
    IdsSize(s.items);
    assert Ids(s.items) <= n.statuses.Keys;
    SubsetSize(Ids(s.items), n.statuses.Keys);
  }

  lemma CaptureUnique(n: Items, s: State, t: State)
    requires Captured(n, s) && Captured(n, t)
    ensures s == t
  {
    CapturedIds(n, s);
    CapturedIds(n, t);
    hide Valid, CountUnlocked, Ids, Sorted, RowOf;
    forall i | 0 <= i < |s.items| ensures s.items[i] == t.items[i] {
      SameOrder(s.items, t.items, i);
      OneRow(n, s.items[i], t.items[i]);
    }
  }

  lemma OneRow(n: Items, a: Item, b: Item)
    requires RowOf(n, a) && RowOf(n, b) && a.Id() == b.Id() && NoRepeat(n.unlocked)
    ensures a == b
  {
    OnePosition(n.unlocked, a.Id(), a.index, b.index);
  }

  lemma OnePosition(keys: seq<Key>, key: Key, i: word, j: word)
    requires NoRepeat(keys) && Position(keys, key, i) && Position(keys, key, j)
    ensures i == j
  {}

  /** Applying what was just captured changes nothing. */
  lemma CaptureThenApply(n: Items, s: State, after: Items)
    requires Captured(n, s)
    ensures Accepts(true, n, s)
    ensures Applied(n, s, after) ==> after == n
  {
    hide ByIndex, Listed, Overwrite, CountUnlocked, Order, Distinct, Dense;
    if Applied(n, s, after) {
      ListedPositions(s, after.unlocked);
      SameStatuses(n, s);
      forall k | 0 <= k < |after.unlocked| ensures after.unlocked[k] == n.unlocked[k] {
        ListedAt(n, s, after.unlocked, k);
      }
    }
  }

  lemma SameStatuses(n: Items, s: State)
    requires Captured(n, s)
    ensures Accepts(true, n, s) && Overwrite(n.statuses, s.items) == n.statuses
  {
    CapturedIds(n, s);
    RowsHaveStatus(n, s);
    hide Overwrite, Captured, RowOf, Sorted;
    OverwriteKeys(n.statuses, s.items);
    forall k | k in n.statuses ensures Overwrite(n.statuses, s.items)[k] == n.statuses[k] {
      assert k in Ids(s.items);
      var i :| 0 <= i < |s.items| && s.items[i].Id() == k;
      OverwriteFinds(n.statuses, s.items, i);
    }
  }

  lemma RowsHaveStatus(n: Items, s: State)
    requires Captured(n, s)
    ensures Accepts(true, n, s) && Sorted(s.items)
    ensures forall i :: 0 <= i < |s.items| ==> s.items[i].status % 256 == n.statuses[s.items[i].Id()]
  {
    hide Valid, Sorted, CountUnlocked, Position;
  }

  lemma ListedAt(n: Items, s: State, keys: seq<Key>, k: nat)
    requires Captured(n, s) && Listed(keys, ByIndex(s.items)) && k < |keys| && |keys| == |n.unlocked|
    ensures keys[k] == n.unlocked[k]
  {
    hide ByIndex, CountUnlocked, Dense, Distinct, Order, Sorted;
    var i := RowListed(s, keys, k);
    assert RowOf(n, s.items[i]);
    ValidRow(s, i);
  }

  lemma RowListed(s: State, keys: seq<Key>, k: nat) returns (i: nat)
    requires Valid(s) && Listed(keys, ByIndex(s.items)) && k < |keys|
    ensures i < |s.items| && s.items[i].Unlocked() && s.items[i].index == k && keys[k] == s.items[i].Id()
  {
    var m := ByIndex(s.items);
    var order :| Ascending(order, m.Keys) && |keys| == |order|
                 && forall i :: 0 <= i < |keys| ==> order[i] in m && keys[i] == m[order[i]];
    DenseIsSegment(m.Keys);
    forall j | 0 <= j < |keys| ensures j in m && keys[j] == m[j] {
      AscendingSegment(order, |keys|, j);
    }
    i := RowAt(s, keys, k);
  }

  // ---- Notifications ----

  predicate UnlockedIn(items: seq<Item>, key: Key) {
    exists i :: 0 <= i < |items| && items[i].status % 2 == 1 && items[i].Id() == key
  }

  /** The keys that are unlocked now and were not before, in the order of the rows; none without a previous state. */
  function Fresh(previous: Option<State>, items: seq<Item>): seq<Key> {
    if previous.None? || items == [] then []
    else
      var row := items[|items| - 1];
      Fresh(previous, items[..|items| - 1])
      + if row.Unlocked() && !UnlockedIn(previous.value.items, row.Id()) then [row.Id()] else []
  }

  lemma {:induction false} FreshExactly(previous: State, items: seq<Item>, key: Key)
    ensures key in Fresh(Some(previous), items) <==> UnlockedIn(items, key) && !UnlockedIn(previous.items, key)
  {
    hide UnlockedIn;
    if items == [] {
      NoneUnlocked(key);
    } else {
      var n := |items| - 1;
      FreshExactly(previous, items[..n], key);
      UnlockedStep(items, key);
    }
  }

  lemma NoneUnlocked(key: Key)
    ensures !UnlockedIn([], key)
  {}

  lemma UnlockedStep(items: seq<Item>, key: Key)
    requires items != []
    ensures var n := |items| - 1;
            UnlockedIn(items, key) <==> UnlockedIn(items[..n], key) || (items[n].Unlocked() && items[n].Id() == key)
  {
    var n := |items| - 1;
    if i :| 0 <= i < |items| && items[i].Unlocked() && items[i].Id() == key && i < n {
      assert items[..n][i] == items[i];
    }
    if i :| 0 <= i < n && items[..n][i].Unlocked() && items[..n][i].Id() == key {
      assert items[i] == items[..n][i];
    }
  }

  lemma {:induction false} FreshFrom(previous: Option<State>, items: seq<Item>, k: nat)
    requires k < |Fresh(previous, items)|
    ensures exists i :: 0 <= i < |items| && items[i].Id() == Fresh(previous, items)[k]
  {
    hide UnlockedIn;
    var n := |items| - 1;
    var before := Fresh(previous, items[..n]);
    if k < |before| {
      FreshFrom(previous, items[..n], k);
      var i :| 0 <= i < n && items[..n][i].Id() == before[k];
      assert items[i].Id() == before[k];
    } else {
      assert items[n].Id() == Fresh(previous, items)[k];
    }
  }

  lemma {:induction false} FreshOnce(previous: Option<State>, items: seq<Item>)
    requires Sorted(items)
    ensures NoRepeat(Fresh(previous, items))
  {
    hide UnlockedIn;
    if items != [] && previous.Some? {
      var n := |items| - 1;
      FreshOnce(previous, items[..n]);
      var before := Fresh(previous, items[..n]);
      forall k | 0 <= k < |before| ensures before[k] != items[n].Id() {
        FreshFrom(previous, items[..n], k);
        var i :| 0 <= i < n && items[..n][i].Id() == before[k];
        assert items[i].Id() == before[k];
      }
    }
  }

  /** The parts notified are exactly the newly unlocked ones, once each. */
  lemma NotifiedExactly(previous: State, s: State, key: Key)
    requires Valid(s)
    ensures multiset(Fresh(Some(previous), s.items))[key]
         == if UnlockedIn(s.items, key) && !UnlockedIn(previous.items, key) then 1 else 0
  {
    FreshExactly(previous, s.items, key);
    FreshOnce(Some(previous), s.items);
    Multiplicity(Fresh(Some(previous), s.items), key);
  }

  lemma {:induction false} Multiplicity(keys: seq<Key>, key: Key)
    requires NoRepeat(keys)
    ensures multiset(keys)[key] == if key in keys then 1 else 0
  {
    if keys != [] {
      var n := |keys| - 1;
      Multiplicity(keys[..n], key);
      assert keys == keys[..n] + [keys[n]];
    }
  }
}
