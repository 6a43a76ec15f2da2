/**
  The tracking table beside the actor table (src/bridge/native_actors.cpp, track, bind and the checkpoint restore).
  Records are never freed: a bind looks for one whose actor is no longer live.
*/
module TrackedActors {
  import opened Basics
  import opened ActorTable
  import ActorCommands

  datatype Record = Record(id: nat, nativeId: nat)

  const NO_RECORD := Record(0, NO_NATIVE_ID)

  /** What binding reads of an original creature. */
  datatype Animal = Animal(key: nat, nativeId: nat, dead: bool, destroyed: bool)

  datatype State = State(table: Table, tracked: seq<Record>)

  datatype Result = Result(state: State, binding: Binding)

  /** The first record with this identity. */
  function Track(tracked: seq<Record>, id: nat): (i: nat)
    ensures i <= |tracked|
    ensures i < |tracked| ==> id != 0 && tracked[i].id == id
    ensures forall k :: 0 <= k < i ==> id == 0 || tracked[k].id != id
  {
    if tracked == [] || (id != 0 && tracked[0].id == id) then 0 else 1 + Track(tracked[1..], id)
  }

  /** The first record whose actor is not live. */
  function FreeSlot(t: Table, tracked: seq<Record>): (i: nat)
    ensures i <= |tracked|
    ensures i < |tracked| ==> !Find(t, tracked[i].id).live
    ensures forall k :: 0 <= k < i ==> Find(t, tracked[k].id).live
  {
    if tracked == [] || !Find(t, tracked[0].id).live then 0 else 1 + FreeSlot(t, tracked[1..])
  }

  predicate Admissible(a: Animal, owner: nat, corpseTarget: bool) {
    !(a.dead && (!corpseTarget || owner != 0)) && !a.destroyed
  }

  /** The record of a live binding: found, or put into a free slot, or not there at all. */
  function Recorded(t: Table, tracked: seq<Record>, id: nat, nativeId: nat): seq<Record> {
    var free := FreeSlot(t, tracked);
    var with :=
      if Track(tracked, id) == |tracked| && free < |tracked| then tracked[free := Record(id, NO_NATIVE_ID)]
      else tracked;
    var i := Track(with, id);
    if i < |with| then with[i := with[i].(nativeId := nativeId)] else with
  }

  function BindActor(s: State, a: Animal, owner: nat, corpseTarget: bool): Result {
    if !Admissible(a, owner, corpseTarget) then Result(s, NO_BINDING)
    else
      var b := Bind(s.table, a.key, owner);
      if !b.binding.live then Result(s.(table := b.table), NO_BINDING)
      else Result(State(b.table, Recorded(b.table, s.tracked, b.binding.id, a.nativeId)), b.binding)
  }

  predicate NoneLive(t: Table) {
    forall b :: b in t.bindings ==> !b.live
  }

  function InvalidateBoth(t: Table, a: Animal, b: Animal): Table {
    Invalidate(Invalidate(t, a.key).table, b.key).table
  }

  predicate Restorable(s: State, a: Animal, b: Animal, matched: bool) {
    && matched && NoneLive(s.table) && a.key != 0 && b.key != 0 && a.key != b.key
    && Admissible(a, 1, false) && Admissible(b, 2, false)
  }

  /** Two bindings first, without their records; then both records, unless the log has failed. */
  function Restore(s: State, a: Animal, b: Animal, matched: bool, failed: bool): State {
    if !Restorable(s, a, b, matched) then s
    else
      var first := Bind(s.table, a.key, 1);
      var second := Bind(first.table, b.key, 2);
      if !first.binding.live || !second.binding.live then s.(table := InvalidateBoth(second.table, a, b))
      else
        var one := BindActor(s.(table := second.table), a, 1, false).state;
        var two := BindActor(one, b, 2, false).state;
        if failed then two.(table := InvalidateBoth(two.table, a, b)) else two
  }

  class NativeActors {
    const commands: ActorCommands.ActorCommands
    const tracked: array<Record>

    ghost predicate Valid()
      reads this, commands, commands.queue
    {
      commands.Valid() && tracked.Length == CAPACITY
    }

    ghost function Contents(): State
      requires Valid()
      reads this, commands, commands.queue, commands.bindings, tracked
    {
      State(commands.Contents(), tracked[..])
    }

    constructor (blank: Command)
      ensures Valid() && fresh(commands) && fresh(commands.bindings) && fresh(commands.queue) && fresh(tracked)
      ensures Contents() == INITIAL
    {
      commands := new ActorCommands.ActorCommands(blank);
      tracked := new Record[CAPACITY](_ => NO_RECORD);
      new;
      assert tracked[..] == INITIAL.tracked;
    }

    method FindRecord(id: nat) returns (i: nat)
      requires Valid()
      ensures i == Track(tracked[..], id)
    {
      i := 0;
      while i < tracked.Length && !(id != 0 && tracked[i].id == id)
        invariant i <= tracked.Length
        invariant forall k :: 0 <= k < i ==> id == 0 || tracked[k].id != id
      {
        i := i + 1;
      }
      var j := Track(tracked[..], id);
      assert j < tracked.Length ==> tracked[j].id == id;
    }

    method BindAnimal(a: Animal, owner: nat, corpseTarget: bool) returns (b: Binding)
      requires Valid()
      modifies commands, commands.bindings, tracked
      ensures Valid() && Result(Contents(), b) == BindActor(old(Contents()), a, owner, corpseTarget)
    {
      hide Bind, Find, FreeSlot, Track;
      if !Admissible(a, owner, corpseTarget) {
        return NO_BINDING;
      }
      b := commands.Bind(a.key, owner);
      if !b.live {
        return NO_BINDING;
      }
      var i := FindRecord(b.id);
      if i == tracked.Length {
        i := FindFree();
        if i < tracked.Length {
          tracked[i] := Record(b.id, NO_NATIVE_ID);
        }
      }
      i := FindRecord(b.id);
      if i < tracked.Length {
        tracked[i] := tracked[i].(nativeId := a.nativeId);
      }
    }

    method LiveCount() returns (n: nat)
      requires Valid()
      ensures n == 0 <==> NoneLive(commands.Contents())
    {
      n := 0;
      for i := 0 to commands.bindings.Length
        invariant n == 0 <==> forall k :: 0 <= k < i ==> !commands.bindings[k].live
      {
        if commands.bindings[i].live {
          NotLive(commands.bindings[..], i);
          n := n + 1;
        }
      }
    }

    method InvalidatePair(a: Animal, b: Animal)
      requires Valid()
      modifies commands, commands.bindings
      ensures Valid() && Contents() == old(Contents()).(table := InvalidateBoth(old(commands.Contents()), a, b))
    {
      var _ := commands.Invalidate(a.key);
      var _ := commands.Invalidate(b.key);
    }

    /** Adopts a checkpoint's two actors; what must match of the scene is already decided. */
    method RestoreCheckpoint(a: Animal, b: Animal, matched: bool, failed: bool)
      requires Valid()
      modifies commands, commands.bindings, tracked
      ensures Valid() && Contents() == Restore(old(Contents()), a, b, matched, failed)
    {
      hide Bind, Invalidate, BindActor, Admissible;
      var live := LiveCount();
      if !matched || live != 0 || a.key == 0 || b.key == 0 || a.key == b.key ||
         !Admissible(a, 1, false) || !Admissible(b, 2, false) {
        return;
      }
      var first := commands.Bind(a.key, 1);
      var second := commands.Bind(b.key, 2);
      if !first.live || !second.live {
        InvalidatePair(a, b);
        return;
      }
      var _ := BindAnimal(a, 1, false);
      var _ := BindAnimal(b, 2, false);
      if failed {
        InvalidatePair(a, b);
      }
    }

    method FindFree() returns (i: nat)
      requires Valid()
      ensures i == FreeSlot(commands.Contents(), tracked[..])
    {
      hide Find;
      i := 0;
      while i < tracked.Length
        invariant i <= tracked.Length
        invariant forall k :: 0 <= k < i ==> Find(commands.Contents(), tracked[k].id).live
      {
        var b := commands.Find(tracked[i].id);
        if !b.live {
          break;
        }
        i := i + 1;
      }
      var j := FreeSlot(commands.Contents(), tracked[..]);
      assert j < tracked.Length ==> !Find(commands.Contents(), tracked[j].id).live;
      assert j < tracked.Length ==> tracked[..][j] == tracked[j];
    }
  }

  lemma NotLive(bs: seq<Binding>, i: nat)
    requires i < |bs| && bs[i].live
    ensures bs[i] in bs
  {}

  const INITIAL := State(
    START, [NO_RECORD, NO_RECORD, NO_RECORD, NO_RECORD, NO_RECORD, NO_RECORD, NO_RECORD, NO_RECORD])

  // ---- The two tables agree ----

  predicate RecordsApart(tracked: seq<Record>) {
    && |tracked| == CAPACITY
    && forall i, j :: 0 <= i < j < CAPACITY && tracked[i].id != 0 ==> tracked[i].id != tracked[j].id
  }

  predicate HasRecord(tracked: seq<Record>, id: nat) {
    exists i :: 0 <= i < |tracked| && tracked[i].id == id
  }

  /** Every live binding has a record, with these identities excepted; no identity has two. */
  predicate Agree(s: State, except: set<nat>) {
    && BindingsOk(s.table) && RecordsApart(s.tracked)
    && forall b :: b in s.table.bindings && b.live && b.id !in except ==> HasRecord(s.tracked, b.id)
  }

  /** So it is exactly one record. */
  lemma ExactlyOneRecord(s: State, b: Binding)
    requires Agree(s, {}) && b in s.table.bindings && b.live
    ensures exists i :: 0 <= i < CAPACITY && s.tracked[i].id == b.id
              && forall j :: 0 <= j < CAPACITY && s.tracked[j].id == b.id ==> j == i
  {
    var i :| 0 <= i < |s.tracked| && s.tracked[i].id == b.id;
    var k :| 0 <= k < |s.table.bindings| && s.table.bindings[k] == b;
    assert BindingOk(s.table, s.table.bindings[k]);
  }

  function LiveIds(bs: seq<Binding>): set<nat> {
    set b | b in bs && b.live :: b.id
  }

  function RecordIds(rs: seq<Record>): set<nat> {
    set r | r in rs :: r.id
  }

  lemma {:induction false} FewLiveIds(bs: seq<Binding>)
    ensures |LiveIds(bs)| <= |bs|
  {
    if bs != [] {
      FewLiveIds(bs[1..]);
      var all := LiveIds(bs);
      assert bs == [bs[0]] + bs[1..];
      assert all == LiveIds(bs[1..]) + if bs[0].live then {bs[0].id} else {};
    }
  }

  lemma {:induction false} ManyRecordIds(rs: seq<Record>)
    requires forall i, j :: 0 <= i < j < |rs| ==> rs[i].id != rs[j].id
    ensures |RecordIds(rs)| == |rs|
  {
    if rs != [] {
      ManyRecordIds(rs[1..]);
      assert rs == [rs[0]] + rs[1..];
      assert RecordIds(rs) == RecordIds(rs[1..]) + {rs[0].id};
      assert rs[0].id !in RecordIds(rs[1..]);
    }
  }

  /** Eight records cannot all belong to live actors while a ninth live actor has none: there are eight bindings. */
  lemma FreeSlotExists(s: State, except: set<nat>, b: Binding)
    requires Agree(s, except) && b in s.table.bindings && b.live && !HasRecord(s.tracked, b.id)
    ensures FreeSlot(s.table, s.tracked) < CAPACITY
  {
    hide BindingsOk, Find;
    var ids, live := RecordIds(s.tracked), LiveIds(s.table.bindings);
    if FreeSlot(s.table, s.tracked) == CAPACITY {
      forall i | 0 <= i < CAPACITY ensures s.tracked[i].id in live && s.tracked[i].id != 0 {
        FindMember(s.table, s.tracked[i].id);
        assert Find(s.table, s.tracked[i].id) in s.table.bindings;
      }
      ManyRecordIds(s.tracked);
      FewLiveIds(s.table.bindings);
      TableOfEight(s.table);
      assert b.id !in ids;
      SubsetSize(ids + {b.id}, live);
    }
  }

  lemma TableOfEight(t: Table)
    requires BindingsOk(t)
    ensures |t.bindings| == CAPACITY
  {}

  /** The search in bind always succeeds, and afterwards this binding has its record. */
  lemma RecordedAgrees(s: State, except: set<nat>, b: Binding, nativeId: nat)
    requires Agree(s, except) && b in s.table.bindings && b.live
    ensures var u := s.(tracked := Recorded(s.table, s.tracked, b.id, nativeId));
            && Agree(u, except - {b.id})
            && exists i :: 0 <= i < CAPACITY && u.tracked[i] == Record(b.id, nativeId)
  {
    hide BindingsOk, Find, FreeSlot;
    FindLive(s.table, b);
    var free, i := FreeSlot(s.table, s.tracked), Track(s.tracked, b.id);
    if i == CAPACITY {
      FreeSlotExists(s, except, b);
    }
    FreeSlotDead(s.table, s.tracked);
    var with := if i == CAPACITY then s.tracked[free := Record(b.id, NO_NATIVE_ID)] else s.tracked;
    assert with[if i == CAPACITY then free else i].id == b.id;
    var k := Track(with, b.id);
    assert k < CAPACITY;
    var u := s.(tracked := Recorded(s.table, s.tracked, b.id, nativeId));
    assert u.tracked == with[k := with[k].(nativeId := nativeId)];
    assert u.tracked[k] == Record(b.id, nativeId);
    forall c | c in u.table.bindings && c.live && c.id !in except - {b.id} ensures HasRecord(u.tracked, c.id) {
      if c.id == b.id {
        assert u.tracked[k].id == c.id;
      } else {
        FindLive(s.table, c);
        assert HasRecord(s.tracked, c.id);
        var l :| 0 <= l < |s.tracked| && s.tracked[l].id == c.id;
        assert u.tracked[l].id == c.id;
      }
    }
  }

  lemma FreeSlotDead(t: Table, tracked: seq<Record>)
    ensures var i := FreeSlot(t, tracked); i < |tracked| ==> !Find(t, tracked[i].id).live
  {}

  // ---- Every operation ----

  /** Binding in the actor table alone adds at most one live binding, and it is the one it returns. */
  lemma BindEffect(t: Table, key: nat, owner: nat)
    requires BindingsOk(t) && t.nextId < MAX
    ensures var r := Bind(t, key, owner);
            && BindingsOk(r.table)
            && (r.binding.live ==> r.binding in r.table.bindings && r.binding.key == key && r.binding.owner == owner)
            && (!r.binding.live ==> r.table == t)
            && (forall b :: b in r.table.bindings && b.live && b != r.binding ==> b in t.bindings)
  {
    BindKeeps(t, key, owner);
    var r := Bind(t, key, owner);
    var i, free := First(t.bindings, HasKey(key)), First(t.bindings, IsFree());
    if r.table != t {
      assert r.table.bindings[free] == r.binding;
    } else if r.binding.live {
      assert t.bindings[i] == r.binding;
    }
  }

  lemma RawBindAgrees(s: State, except: set<nat>, key: nat, owner: nat)
    requires Agree(s, except) && s.table.nextId < MAX
    ensures var r := Bind(s.table, key, owner);
            if r.binding.live then Agree(s.(table := r.table), except + {r.binding.id}) else r.table == s.table
  {
    hide BindingsOk, Bind, HasRecord;
    BindEffect(s.table, key, owner);
  }

  /** A bind keeps the tables in agreement, and gives its actor the record with its native number. */
  lemma BindActorAgrees(s: State, except: set<nat>, a: Animal, owner: nat, corpseTarget: bool)
    requires Agree(s, except) && s.table.nextId < MAX
    ensures var r := BindActor(s, a, owner, corpseTarget);
            && Agree(r.state, if r.binding.live then except - {r.binding.id} else except)
            && (r.binding.live ==>
                  exists i :: 0 <= i < CAPACITY && r.state.tracked[i] == Record(r.binding.id, a.nativeId))
  {
    var b := Bind(s.table, a.key, owner);
    RawBindAgrees(s, except, a.key, owner);
    BindEffect(s.table, a.key, owner);
    hide Bind, Recorded, Agree;
    AgreedSize(s, except);
    if Admissible(a, owner, corpseTarget) && b.binding.live {
      var u := s.(table := b.table);
      RecordedAgrees(u, except + {b.binding.id}, b.binding, a.nativeId);
      FewerExceptions(BindActor(s, a, owner, corpseTarget).state, except + {b.binding.id} - {b.binding.id},
                      except - {b.binding.id});
    }
  }

  lemma AgreedSize(s: State, except: set<nat>)
    requires Agree(s, except)
    ensures |s.tracked| == CAPACITY && BindingsOk(s.table)
  {}

  lemma FewerExceptions(s: State, some: set<nat>, others: set<nat>)
    requires Agree(s, some) && some <= others
    ensures Agree(s, others)
  {}

  lemma KilledAgrees(s: State, except: set<nat>, t: Table)
    requires Agree(s, except) && BindingsOk(t)
    requires forall b :: b in t.bindings && b.live ==> b in s.table.bindings
    ensures Agree(s.(table := t), except)
  {}

  lemma InvalidateAgrees(s: State, except: set<nat>, key: nat)
    requires Agree(s, except)
    ensures Agree(s.(table := Invalidate(s.table, key).table), except)
  {
    hide BindingsOk, HasRecord;
    InvalidateKeeps(s.table, key);
    KilledAgrees(s, except, Invalidate(s.table, key).table);
  }

  /** A key that is bound is bound again without any change. */
  lemma Rebind(t: Table, b: Binding)
    requires BindingsOk(t) && b in t.bindings && b.live
    ensures Bind(t, b.key, b.owner) == Bound(t, b)
  {
    var i :| 0 <= i < |t.bindings| && t.bindings[i] == b;
    assert BindingOk(t, t.bindings[i]);
    forall k | 0 <= k < i ensures !HasKey(b.key)(t.bindings[k]) {
      assert Apart(t.bindings[k], t.bindings[i]);
    }
    ActorCommands.FirstUnique(t.bindings, HasKey(b.key), i);
  }

  /** With nothing live two different actors always find two free slots. */
  lemma BothBind(t: Table, a: nat, b: nat)
    requires BindingsOk(t) && NoneLive(t) && a != 0 && b != 0 && a != b && t.nextId + 2 < MAX
    ensures var first := Bind(t, a, 1);
            var second := Bind(first.table, b, 2);
            && first.binding.live && second.binding.live && first.binding in second.table.bindings
            && BindingsOk(second.table) && second.table.nextId == t.nextId + 2
            && first.binding.owner == 1 && first.binding.key == a
  {
    BindEffect(t, a, 1);
    var first := Bind(t, a, 1);
    BindEffect(first.table, b, 2);
    assert !t.bindings[0].live && !t.bindings[1].live;
    var i, j := First(first.table.bindings, HasKey(b)), First(first.table.bindings, IsFree());
    assert IsFree()(t.bindings[0]);
    assert first.table.bindings == t.bindings[0 := first.binding];
    assert IsFree()(first.table.bindings[1]);
    var second := Bind(first.table, b, 2);
    assert second.table.bindings[0] == first.binding;
  }

  lemma RestoreAgrees(s: State, a: Animal, b: Animal, matched: bool, failed: bool)
    requires Agree(s, {}) && s.table.nextId + 2 < MAX
    ensures Agree(Restore(s, a, b, matched, failed), {})
    ensures Restorable(s, a, b, matched) && !failed ==>
              && Bind(Restore(s, a, b, matched, failed).table, a.key, 1).binding.live
              && Bind(Restore(s, a, b, matched, failed).table, b.key, 2).binding.live
  {
    hide Agree, BindActor, Bind, Invalidate, BindingsOk;
    AgreedSize(s, {});
    if Restorable(s, a, b, matched) {
      BothBind(s.table, a.key, b.key);
      var first := Bind(s.table, a.key, 1);
      var second := Bind(first.table, b.key, 2);
      BothRecorded(s, a, b);
      var one := BindActor(s.(table := second.table), a, 1, false).state;
      var two := BindActor(one, b, 2, false).state;
      InvalidateAgrees(two, {}, a.key);
      InvalidateAgrees(two.(table := Invalidate(two.table, a.key).table), {}, b.key);
    }
  }

  lemma BothRecorded(s: State, a: Animal, b: Animal)
    requires Agree(s, {}) && s.table.nextId + 2 < MAX && Restorable(s, a, b, true)
    ensures var first := Bind(s.table, a.key, 1);
            var second := Bind(first.table, b.key, 2);
            var one := BindActor(s.(table := second.table), a, 1, false).state;
            var two := BindActor(one, b, 2, false).state;
            && Agree(two, {}) && two.table == second.table
            && Bind(two.table, a.key, 1).binding.live && Bind(two.table, b.key, 2).binding.live
  {
    hide Agree, Bind, BindingsOk, Recorded, Admissible;
    AgreedSize(s, {});
    BothBind(s.table, a.key, b.key);
    var first := Bind(s.table, a.key, 1);
    var second := Bind(first.table, b.key, 2);
    RawBindAgrees(s, {}, a.key, 1);
    var s1 := s.(table := first.table);
    BindEffect(s.table, a.key, 1);
    RawNumber(s.table, a.key);
    RawBindAgrees(s1, {} + {first.binding.id}, b.key, 2);
    BindEffect(first.table, b.key, 2);
    var s2 := s1.(table := second.table);
    assert s2 == s.(table := second.table);
    Rebind(second.table, first.binding);
    BindActorAgrees(s2, {} + {first.binding.id} + {second.binding.id}, a, 1, false);
    Rebind(second.table, second.binding);
    var one := BindActor(s2, a, 1, false).state;
    var left := {} + {first.binding.id} + {second.binding.id} - {first.binding.id};
    BindActorAgrees(one, left, b, 2, false);
    FewerExceptions(BindActor(one, b, 2, false).state, left - {second.binding.id}, {});
  }

  lemma RawNumber(t: Table, key: nat)
    requires t.nextId + 1 < MAX
    ensures Bind(t, key, 1).table.nextId <= t.nextId + 1
  {}

  datatype Operation =
    | Binding(animal: Animal, owner: nat, corpseTarget: bool)
    | Restoring(a: Animal, b: Animal, matched: bool, failed: bool)
    | Other(step: Step)

  /** Only bind and the restore make new bindings. */
  predicate Legal(op: Operation) {
    op.Other? ==> !op.step.Binds?
  }

  function Operate(s: State, op: Operation): State {
    match op
    case Binding(a, owner, corpse) => BindActor(s, a, owner, corpse).state
    case Restoring(a, b, matched, failed) => Restore(s, a, b, matched, failed)
    case Other(step) => s.(table := Next(s.table, step))
  }

  predicate Good(s: State, taken: nat) {
    Agree(s, {}) && s.table.nextId <= taken
  }

  lemma BindNumber(t: Table, key: nat, owner: nat)
    requires t.nextId < MAX
    ensures t.nextId <= Bind(t, key, owner).table.nextId <= t.nextId + 1
  {}

  lemma RestoreNumbers(s: State, a: Animal, b: Animal, matched: bool, failed: bool)
    requires Agree(s, {}) && s.table.nextId + 2 < MAX
    ensures Restore(s, a, b, matched, failed).table.nextId <= s.table.nextId + 2
  {
    hide Agree, Bind, BindActor, BindingsOk;
    AgreedSize(s, {});
    if Restorable(s, a, b, matched) {
      BothBind(s.table, a.key, b.key);
      BothRecorded(s, a, b);
    }
  }

  /** Bind, invalidate, scene exit, restore and everything else keep the tables in agreement. */
  lemma OperationKeeps(s: State, op: Operation, taken: nat)
    requires Good(s, taken) && Legal(op) && taken + 2 < MAX
    ensures Good(Operate(s, op), taken + 2)
  {
    hide Agree, Bind, Recorded, BindingsOk, Admission;
    AgreedSize(s, {});
    match op
    case Binding(a, owner, corpse) =>
      BindNumber(s.table, a.key, owner);
      BindActorAgrees(s, {}, a, owner, corpse);
      var r := BindActor(s, a, owner, corpse);
      if r.binding.live {
        FewerExceptions(r.state, {} - {r.binding.id}, {});
      }
    case Restoring(a, b, matched, failed) =>
      RestoreNumbers(s, a, b, matched, failed);
      RestoreAgrees(s, a, b, matched, failed);
    case Other(step) =>
      BindingsKeep(s.table, step);
      OtherAgrees(s, step);
  }

  lemma OtherAgrees(s: State, step: Step)
    requires Agree(s, {}) && !step.Binds? && BindingsOk(Next(s.table, step))
    ensures Agree(s.(table := Next(s.table, step)), {}) && Next(s.table, step).nextId == s.table.nextId
  {
    hide BindingsOk, HasRecord, Admission;
    KilledAgrees(s, {}, Next(s.table, step));
  }

  function OperateAll(s: State, ops: seq<Operation>): State
    decreases |ops|
  {
    if ops == [] then s else OperateAll(Operate(s, ops[0]), ops[1..])
  }

  lemma {:induction false} RunAgrees(s: State, ops: seq<Operation>, taken: nat)
    requires Good(s, taken) && taken + 2 * |ops| < MAX
    requires forall i :: 0 <= i < |ops| ==> Legal(ops[i])
    ensures Good(OperateAll(s, ops), taken + 2 * |ops|)
    decreases |ops|
  {
    hide Good, Operate, Legal;
    if ops != [] {
      OperationKeeps(s, ops[0], taken);
      RunAgrees(Operate(s, ops[0]), ops[1..], taken + 2);
    }
  }

  lemma InitialGood()
    ensures Good(INITIAL, 0)
  {}

  /**
    Whatever the order of binds, invalidations, scene exits and restores: a bind that gets a live binding also gets its
    record, with the creature's native number, and it is the only record of that actor.
  */
  lemma BindAlwaysRecords(ops: seq<Operation>, a: Animal, owner: nat, corpseTarget: bool)
    requires 2 * |ops| + 2 < MAX && forall i :: 0 <= i < |ops| ==> Legal(ops[i])
    ensures var r := BindActor(OperateAll(INITIAL, ops), a, owner, corpseTarget);
            r.binding.live ==>
              && |r.state.tracked| == CAPACITY
              && exists i :: 0 <= i < CAPACITY && r.state.tracked[i] == Record(r.binding.id, a.nativeId)
                   && forall j :: 0 <= j < CAPACITY && r.state.tracked[j].id == r.binding.id ==> j == i
  {
    InitialGood();
    RunAgrees(INITIAL, ops, 0);
    var s := OperateAll(INITIAL, ops);
    BindActorAgrees(s, {}, a, owner, corpseTarget);
    if BindActor(s, a, owner, corpseTarget).binding.live {
      OnlyRecord(s, a, owner, corpseTarget);
    }
  }

  lemma OnlyRecord(s: State, a: Animal, owner: nat, corpseTarget: bool)
    requires Agree(s, {}) && s.table.nextId < MAX && BindActor(s, a, owner, corpseTarget).binding.live
    requires Agree(BindActor(s, a, owner, corpseTarget).state, {} - {BindActor(s, a, owner, corpseTarget).binding.id})
    ensures var r := BindActor(s, a, owner, corpseTarget);
            forall i, j :: 0 <= i < CAPACITY && 0 <= j < CAPACITY ==>
              r.state.tracked[i].id == r.binding.id && r.state.tracked[j].id == r.binding.id ==> i == j
  {
    var r := BindActor(s, a, owner, corpseTarget);
    hide Recorded, First, FindKey;
    BindEffect(s.table, a.key, owner);
    var k :| 0 <= k < |r.state.table.bindings| && r.state.table.bindings[k] == r.binding;
    assert BindingOk(r.state.table, r.state.table.bindings[k]);
  }

  /** Between any operations every live binding has exactly one record. */
  lemma OneRecordInAnyRun(ops: seq<Operation>, b: Binding)
    requires 2 * |ops| < MAX && forall i :: 0 <= i < |ops| ==> Legal(ops[i])
    requires b in OperateAll(INITIAL, ops).table.bindings && b.live
    ensures var tracked := OperateAll(INITIAL, ops).tracked;
            && |tracked| == CAPACITY
            && exists i :: 0 <= i < CAPACITY && tracked[i].id == b.id
                 && forall j :: 0 <= j < CAPACITY && tracked[j].id == b.id ==> j == i
  {
    InitialGood();
    RunAgrees(INITIAL, ops, 0);
    ExactlyOneRecord(OperateAll(INITIAL, ops), b);
  }
}
