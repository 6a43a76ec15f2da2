/** The original's containers, captured and overwritten in place (src/bridge/native_inventory.cpp). */
module InventoryProjection {
  import opened Basics
  import opened Words
  import opened Inventory

  class CollectableItems {
    const group: word
    var points: int32
    var statuses: map<Key, byte>
    var unlocked: seq<Key>

    ghost function Contents(): Items
      reads this
    {
      Items(points, group, statuses, unlocked)
    }

    constructor (group: word, points: int32, statuses: map<Key, byte>, unlocked: seq<Key>)
      ensures Contents() == Items(points, group, statuses, unlocked)
    {
      this.group, this.points, this.statuses, this.unlocked := group, points, statuses, unlocked;
    }

    /** The place of each unlocked key; fails at the first key listed twice. */
    method Positions() returns (ok: bool, positions: map<Key, word>)
      requires |unlocked| <= CAPACITY
      ensures ok <==> NoRepeat(unlocked)
      ensures ok ==> forall k: Key :: Position(unlocked, k, if k in positions then positions[k] else NO_INDEX)
    {
      positions := map[];
      for index := 0 to |unlocked|
        invariant NoRepeat(unlocked[..index])
        invariant positions.Keys == (set i | 0 <= i < index :: unlocked[i])
        invariant forall k :: k in positions ==> positions[k] < index && unlocked[positions[k]] == k
      {
        if unlocked[index] in positions {
          assert unlocked[positions[unlocked[index]]] == unlocked[index];
          return false, positions;
        }
        positions := positions[unlocked[index] := index];
      }
      assert unlocked[..|unlocked|] == unlocked;
      return true, positions;
    }

    /** The rows of all parts that have a status, ascending. */
    method Rows(positions: map<Key, word>) returns (rows: seq<Item>)
      requires forall k: Key :: Position(unlocked, k, if k in positions then positions[k] else NO_INDEX)
      ensures |rows| == |statuses| && Sorted(rows) && forall i :: 0 <= i < |rows| ==> RowOf(Contents(), rows[i])
    {
      hide Position;
      rows := [];
      var remaining := statuses.Keys;
      while remaining != {}
        invariant remaining <= statuses.Keys && |rows| + |remaining| == |statuses|
        invariant Sorted(rows)
        invariant forall i :: 0 <= i < |rows| ==> RowOf(Contents(), rows[i])
        invariant forall i, k :: 0 <= i < |rows| && k in remaining ==> rows[i].Id().Number() < k.Number()
        decreases |remaining|
      {
        LeastKey(remaining);
        var k :| k in remaining && forall j :: j in remaining ==> k.Number() <= j.Number();
        forall j | j in remaining - {k} ensures k.Number() < j.Number() {
          if k.Number() == j.Number() {
            NumberInjective(k, j);
          }
        }
        var row := Item(k.instance, k.group, statuses[k], if k in positions then positions[k] else NO_INDEX);
        assert row.Id() == k;
        rows := rows + [row];
        remaining := remaining - {k};
      }
    }

    /** The complete state, or a refusal when there is none to give. */
    method Capture() returns (ok: bool, s: State)
      ensures ok ==> Captured(Contents(), s)
      ensures !ok ==> !exists t: State :: Captured(Contents(), t)
    {
      hide Position, Order, Dense, Distinct, Sorted, CountUnlocked;
      s := State(0, group, []);
      if statuses == map[] || |statuses| > CAPACITY || |unlocked| > CAPACITY || points < 0 {
        return false, s;
      }
      var distinct, positions := Positions();
      if !distinct {
        return false, s;
      }
      var rows := Rows(positions);
      s := State(points, group, rows);
      ok := Valid(s) && |unlocked| == CountUnlocked(rows);
      if !ok {
        forall t: State | Captured(Contents(), t) ensures false {
          OnlyRows(Contents(), s, t);
        }
      }
    }

    /** The unlocked keys by index, when every row's key has a status. */
    method Ordered(items: seq<Item>) returns (ok: bool, ordered: map<nat, Key>)
      ensures ok <==> forall i :: 0 <= i < |items| ==> items[i].Id() in statuses
      ensures ok ==> ordered == ByIndex(items)
    {
      ordered := map[];
      for i := 0 to |items|
        invariant forall k :: 0 <= k < i ==> items[k].Id() in statuses
        invariant ordered == ByIndex(items[..i])
      {
        var row := items[i];
        assert items[..i + 1][..i] == items[..i];
        if row.Id() !in statuses {
          return false, ordered;
        }
        if row.Unlocked() && row.index !in ordered {
          ordered := ordered[row.index := row.Id()];
        }
      }
      assert items[..|items|] == items;
      return true, ordered;
    }

    method SetStatuses(items: seq<Item>)
      requires forall i :: 0 <= i < |items| ==> items[i].Id() in statuses
      modifies this
      ensures Contents() == old(Contents()).(statuses := Overwrite(old(statuses), items))
    {
      for i := 0 to |items|
        invariant Contents() == old(Contents()).(statuses := Overwrite(old(statuses), items[..i]))
      {
        assert items[..i + 1][..i] == items[..i];
        statuses := statuses[items[i].Id() := items[i].status % 256];
      }
      assert items[..|items|] == items;
    }

    /** Overwrites what is displayed; refuses, without touching anything, a state over other parts. */
    method Apply(allowed: bool, s: State) returns (ok: bool)
      modifies this
      ensures ok == Accepts(allowed, old(Contents()), s)
      ensures ok ==> Applied(old(Contents()), s, Contents())
      ensures !ok ==> Contents() == old(Contents())
    {
      hide Listed, ByIndex, Overwrite;
      if !allowed || group != s.group || |statuses| != |s.items| {
        return false;
      }
      var ordered;
      ok, ordered := Ordered(s.items);
      if !ok {
        return;
      }
      var replacement := InOrder(ordered);
      unlocked := replacement;
      SetStatuses(s.items);
      points := Signed(s.points);
    }

    /** Applies a state, checks it against what is then held, and notifies the parts that are new in it. */
    method Present(identified: bool, allowed: bool, s: State, previous: Option<State>, display: nat -> bool)
      returns (ok: bool, notified: seq<Key>)
      modifies this
      ensures ok ==> identified && Captured(Contents(), s) && notified == Fresh(previous, s.items)
      ensures !(identified && Valid(s) && Accepts(allowed, old(Contents()), s)) ==>
                !ok && Contents() == old(Contents()) && notified == []
      ensures identified && Valid(s) && Accepts(allowed, old(Contents()), s) ==>
                && Captured(Contents(), s) && notified <= Fresh(previous, s.items)
                && (ok <==> notified == Fresh(previous, s.items))
    {
      hide Captured, Accepts, Applied;
      notified := [];
      if !identified || !Valid(s) {
        return false, notified;
      }
      hide Valid;
      var accepted := Apply(allowed, s);
      if !accepted {
        return false, notified;
      }
      AppliedCaptured(old(Contents()), s, Contents(), allowed);
      var captured, observed := Capture();
      CaptureUnique(Contents(), s, observed);
      if !captured || observed != s {
        return false, notified;
      }
      ok, notified := Notify(s, previous, display);
    }
  }

  lemma AppliedCaptured(n: Items, s: State, after: Items, allowed: bool)
    requires Accepts(allowed, n, s) && Applied(n, s, after) && Valid(s)
    ensures Captured(after, s)
  {
    hide Valid, Captured;
    ApplyThenCapture(n, s, after);
  }

  /** The rows that are unlocked now and were not before, until a notification fails. */
  method Notify(s: State, previous: Option<State>, display: nat -> bool) returns (ok: bool, notified: seq<Key>)
    ensures notified <= Fresh(previous, s.items) && (ok <==> notified == Fresh(previous, s.items))
  {
    var known := UnlockedKeys(previous);
    notified := [];
    for i := 0 to |s.items|
      invariant notified == Fresh(previous, s.items[..i])
    {
      var row := s.items[i];
      assert s.items[..i + 1][..i] == s.items[..i];
      if previous.None? || !row.Unlocked() || row.Id() in known {
        continue;
      }
      if !display(i) {
        FreshGrows(previous, s.items, i + 1);
        assert Fresh(previous, s.items[..i + 1]) == notified + [row.Id()];
        return false, notified;
      }
      notified := notified + [row.Id()];
    }
    assert s.items[..|s.items|] == s.items;
    return true, notified;
  }

  /** The keys the previous state already had unlocked. */
  method UnlockedKeys(previous: Option<State>) returns (known: set<Key>)
    ensures previous.None? ==> known == {}
    ensures previous.Some? ==> forall k: Key :: k in known <==> UnlockedIn(previous.value.items, k)
  {
    known := {};
    if previous.Some? {
      var items := previous.value.items;
      for i := 0 to |items|
        invariant forall k: Key :: k in known <==> UnlockedIn(items[..i], k)
      {
        forall k: Key ensures UnlockedIn(items[..i + 1], k) <==>
                              UnlockedIn(items[..i], k) || (items[i].Unlocked() && items[i].Id() == k) {
          assert items[..i + 1][..i] == items[..i];
          UnlockedStep(items[..i + 1], k);
        }
        if items[i].Unlocked() {
          known := known + {items[i].Id()};
        }
      }
      assert items[..|items|] == items;
    }
  }

  lemma {:induction false} FreshGrows(previous: Option<State>, items: seq<Item>, i: nat)
    requires i <= |items|
    ensures Fresh(previous, items[..i]) <= Fresh(previous, items)
    decreases |items| - i
  {
    if i == |items| {
      assert items[..i] == items;
    } else {
      assert items[..i + 1][..i] == items[..i];
      FreshGrows(previous, items, i + 1);
    }
  }

  lemma {:induction false} LeastKey(keys: set<Key>)
    requires keys != {}
    ensures exists k :: k in keys && forall j :: j in keys ==> k.Number() <= j.Number()
    decreases |keys|
  {
    var any :| any in keys;
    if keys == {any} {
      assert any in keys && forall j :: j in keys ==> any.Number() <= j.Number();
    } else {
      var rest := keys - {any};
      assert rest != {};
      LeastKey(rest);
      var k :| k in rest && forall j :: j in rest ==> k.Number() <= j.Number();
      var least := if any.Number() < k.Number() then any else k;
      assert forall j :: j in keys ==> j == any || j in rest;
      assert least in keys && forall j :: j in keys ==> least.Number() <= j.Number();
    }
  }

  /** The values of an ordered map, by ascending key. */
  method InOrder(m: map<nat, Key>) returns (keys: seq<Key>)
    ensures Listed(keys, m)
  {
    keys := [];
    ghost var order: seq<nat> := [];
    var remaining := m.Keys;
    while remaining != {}
      invariant remaining <= m.Keys && |order| + |remaining| == |m.Keys| && |keys| == |order|
      invariant forall i :: 0 <= i < |order| ==> order[i] in m && keys[i] == m[order[i]]
      invariant forall i, j :: 0 <= i < j < |order| ==> order[i] < order[j]
      invariant forall i, k :: 0 <= i < |order| && k in remaining ==> order[i] < k
      decreases |remaining|
    {
      ghost var least := LeastNumber(remaining);
      var k :| k in remaining && forall j :: j in remaining ==> k <= j;
      keys, order := keys + [m[k]], order + [k];
      remaining := remaining - {k};
    }
    assert Ascending(order, m.Keys);
  }

  /** Rows that say what the containers say are the rows of any captured state. */
  lemma OnlyRows(n: Items, s: State, t: State)
    requires Captured(n, t) && s.points == n.points && s.group == n.group
    requires |s.items| == |n.statuses| && Sorted(s.items) && forall i :: 0 <= i < |s.items| ==> RowOf(n, s.items[i])
    ensures s == t
  {
    CapturedIds(n, t);
    RowIds(n, s);
    hide Valid, CountUnlocked, Ids, Sorted, RowOf;
    forall i | 0 <= i < |s.items| ensures s.items[i] == t.items[i] {
      SameOrder(s.items, t.items, i);
      OneRow(n, s.items[i], t.items[i]);
    }
  }

  lemma RowIds(n: Items, s: State)
    requires |s.items| == |n.statuses| && Sorted(s.items) && forall i :: 0 <= i < |s.items| ==> RowOf(n, s.items[i])
    ensures Ids(s.items) == n.statuses.Keys
  {
    hide Position;
    IdsSize(s.items);
    assert Ids(s.items) <= n.statuses.Keys;
    SubsetSize(Ids(s.items), n.statuses.Keys);
  }
}
