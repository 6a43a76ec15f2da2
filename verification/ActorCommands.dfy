/** The fixed arrays and counters of ActorCommands (src/bridge/actor_commands.h, src/bridge/actor_commands.cpp). */
module ActorCommands {
  import opened ActorTable

  class ActorCommands {
    const bindings: array<Binding>
    const queue: array<Command>
    var head: nat
    var size: nat
    var epoch: nat
    var nextId: nat
    var nextSequence: nat
    var inputEpoch: nat
    var ready: bool

    ghost predicate Valid()
      reads this, queue
    {
      bindings.Length == CAPACITY && queue.Length == QUEUE_CAPACITY && head < QUEUE_CAPACITY && size <= QUEUE_CAPACITY
    }

    /** The ring, oldest command first. */
    ghost function Pending(): seq<Command>
      requires Valid()
      reads this, queue
    {
      Ring(queue[..], head, size)
    }

    ghost function Contents(): Table
      requires Valid()
      reads this, bindings, queue
    {
      Table(bindings[..], Pending(), epoch, nextId, nextSequence, inputEpoch, ready)
    }

    constructor (blank: Command)
      ensures Valid() && fresh(bindings) && fresh(queue) && Contents() == START
    {
      bindings := new Binding[CAPACITY](_ => NO_BINDING);
      queue := new Command[QUEUE_CAPACITY](_ => blank);
      head, size, epoch, nextId, nextSequence, inputEpoch, ready := 0, 0, 1, 0, 0, 1, true;
      new;
      assert bindings[..] == START.bindings;
    }

    /** The slot of the first binding with this identity, or the table's length. */
    method FindSlot(id: nat) returns (i: nat)
      requires Valid()
      ensures i == First(bindings[..], HasId(id))
    {
      i := 0;
      while i < bindings.Length && !(id != 0 && bindings[i].id == id)
        invariant i <= bindings.Length
        invariant forall k :: 0 <= k < i ==> !HasId(id)(bindings[k])
      {
        i := i + 1;
      }
      FirstUnique(bindings[..], HasId(id), i);
    }

    method Find(id: nat) returns (b: Binding)
      requires Valid()
      ensures b == ActorTable.Find(Contents(), id)
    {
      var i := FindSlot(id);
      b := if i < bindings.Length then bindings[i] else NO_BINDING;
    }

    method FindKeySlot(key: nat) returns (i: nat)
      requires Valid()
      ensures i == First(bindings[..], HasKey(key))
    {
      i := 0;
      while i < bindings.Length && !(key != 0 && bindings[i].key == key && bindings[i].live)
        invariant i <= bindings.Length
        invariant forall k :: 0 <= k < i ==> !HasKey(key)(bindings[k])
      {
        i := i + 1;
      }
      FirstUnique(bindings[..], HasKey(key), i);
    }

    method Bind(key: nat, owner: nat) returns (b: Binding)
      requires Valid()
      modifies this, bindings
      ensures Valid() && Bound(Contents(), b) == ActorTable.Bind(old(Contents()), key, owner)
    {
      hide First;
      if key == 0 {
        return NO_BINDING;
      }
      var known := FindKeySlot(key);
      if known < bindings.Length {
        return if bindings[known].owner == owner then bindings[known] else NO_BINDING;
      }
      var i := 0;
      while i < bindings.Length && bindings[i].live
        invariant i <= bindings.Length
        invariant forall k :: 0 <= k < i ==> !IsFree()(bindings[k])
      {
        i := i + 1;
      }
      FirstUnique(bindings[..], IsFree(), i);
      if i == bindings.Length {
        return NO_BINDING;
      }
      nextId := Increment(nextId);
      b := Binding(nextId, epoch, key, owner, true);
      bindings[i] := b;
    }

    method Invalidate(key: nat) returns (b: Binding)
      requires Valid()
      modifies bindings
      ensures Valid() && Bound(Contents(), b) == ActorTable.Invalidate(old(Contents()), key)
    {
      hide First;
      var i := FindKeySlot(key);
      if i == bindings.Length {
        return NO_BINDING;
      }
      b := bindings[i];
      bindings[i] := b.(live := false);
    }

    method SceneExit()
      requires Valid()
      modifies this, bindings
      ensures Valid() && Contents() == ActorTable.SceneExit(old(Contents()))
    {
      var i := 0;
      while i < bindings.Length
        invariant i <= bindings.Length && unchanged(this) && unchanged(queue)
        invariant forall k :: 0 <= k < i ==> bindings[k] == old(bindings[k]).(live := false)
        invariant forall k :: i <= k < bindings.Length ==> bindings[k] == old(bindings[k])
      {
        bindings[i] := bindings[i].(live := false);
        i := i + 1;
      }
      assert bindings[..] == Killed(old(bindings[..]));
      epoch := Increment(epoch);
      head, size := 0, 0;
    }

    method FenceInputs() returns (e: nat)
      requires Valid()
      modifies this
      ensures Valid() && Contents() == ActorTable.FenceInputs(old(Contents())) && e == inputEpoch
    {
      if ready {
        ready := false;
        if inputEpoch != MAX {
          inputEpoch := Increment(inputEpoch);
        }
      }
      head, size := 0, 0;
      return inputEpoch;
    }

    method ResumeInputs(fencedEpoch: nat) returns (ok: bool)
      requires Valid()
      modifies this
      ensures Valid() && Contents() == ActorTable.ResumeInputs(old(Contents()), fencedEpoch)
      ensures ok == CanResume(old(Contents()), fencedEpoch)
    {
      ok := !ready && fencedEpoch != 0 && fencedEpoch == inputEpoch && inputEpoch != MAX;
      if ok {
        ready := true;
      }
    }

    method Authorize(c: Command) returns (d: Decision)
      requires Valid()
      ensures d == ActorTable.Authorize(Contents(), c)
    {
      hide First;
      if !ready || (c.inputEpoch != 0 && c.inputEpoch != inputEpoch) {
        return InputsFenced;
      }
      var actor := Find(c.actor);
      if !actor.live {
        return UnknownActor;
      }
      if actor.epoch != epoch {
        return StaleScene;
      }
      if c.owner == 0 || actor.owner != c.owner {
        return WrongOwner;
      }
      if c.verb == Collect && (c.target == 0 || c.targetGeneration == 0 || c.targetNativeId == NO_NATIVE_ID) {
        return InvalidTarget;
      }
      if Targeted(c.verb) {
        var target := Find(c.target);
        if !target.live || target.epoch != epoch || target.id == actor.id {
          return InvalidTarget;
        }
      }
      return Accepted;
    }

    method Enqueue(c: Command) returns (d: Decision, stamped: Command)
      requires Valid()
      modifies this, queue
      ensures Valid() && d == Admission(old(Contents()), c) && Contents() == ActorTable.Enqueue(old(Contents()), c)
      ensures stamped == if d == Accepted then Stamped(old(Contents()), c) else c
    {
      hide ActorTable.Authorize, Ring;
      RingSize(queue[..], head, size);
      stamped := c;
      d := Authorize(c);
      if d != Accepted {
        return;
      }
      if size == QUEUE_CAPACITY {
        d := Full;
        return;
      }
      nextSequence := Increment(nextSequence);
      stamped := c.(inputEpoch := inputEpoch, sequence := nextSequence);
      RingAppend(queue[..], head, size, stamped);
      queue[(head + size) % QUEUE_CAPACITY] := stamped;
      size := size + 1;
    }

    method Pop() returns (ok: bool, c: Command)
      requires Valid()
      modifies this
      ensures Valid() && Contents() == ActorTable.Pop(old(Contents())) && ok == (old(Pending()) != [])
      ensures ok ==> c == old(Pending())[0]
    {
      c := queue[head];
      if size == 0 {
        return false, c;
      }
      RingDrop(queue[..], head, size);
      head := (head + 1) % QUEUE_CAPACITY;
      size := size - 1;
      return true, c;
    }
  }

  /** The entries of a ring of this size that starts at head. */
  function Ring(q: seq<Command>, head: nat, size: nat): seq<Command>
    requires |q| == QUEUE_CAPACITY
  {
    if size == 0 then [] else Ring(q, head, size - 1) + [q[(head + size - 1) % QUEUE_CAPACITY]]
  }

  lemma {:induction false} RingSize(q: seq<Command>, head: nat, size: nat)
    requires |q| == QUEUE_CAPACITY
    ensures |Ring(q, head, size)| == size
  {
    if size > 0 {
      RingSize(q, head, size - 1);
    }
  }

  lemma {:induction false} RingFrame(q: seq<Command>, head: nat, size: nat, i: nat, c: Command)
    requires |q| == QUEUE_CAPACITY && head < QUEUE_CAPACITY && size <= i < QUEUE_CAPACITY
    ensures Ring(q[(head + i) % QUEUE_CAPACITY := c], head, size) == Ring(q, head, size)
  {
    if size > 0 {
      RingFrame(q, head, size - 1, i, c);
    }
  }

  /** A new entry goes behind all the others and overwrites none of them. */
  lemma RingAppend(q: seq<Command>, head: nat, size: nat, c: Command)
    requires |q| == QUEUE_CAPACITY && head < QUEUE_CAPACITY && size < QUEUE_CAPACITY
    ensures Ring(q[(head + size) % QUEUE_CAPACITY := c], head, size + 1) == Ring(q, head, size) + [c]
  {
    RingFrame(q, head, size, size, c);
  }

  lemma NextSlot(head: nat, i: nat)
    requires head < QUEUE_CAPACITY
    ensures (head + 1 + i) % QUEUE_CAPACITY == ((head + 1) % QUEUE_CAPACITY + i) % QUEUE_CAPACITY
  {
    if head + 1 == QUEUE_CAPACITY {
      assert (head + 1 + i) % QUEUE_CAPACITY == i % QUEUE_CAPACITY;
    }
  }

  lemma {:induction false} RingDrop(q: seq<Command>, head: nat, size: nat)
    requires |q| == QUEUE_CAPACITY && head < QUEUE_CAPACITY && 0 < size
    ensures Ring(q, head, size) == [q[head]] + Ring(q, (head + 1) % QUEUE_CAPACITY, size - 1)
  {
    if size > 1 {
      RingDrop(q, head, size - 1);
      NextSlot(head, size - 2);
    }
  }

  lemma {:induction false} FirstUnique(bindings: seq<Binding>, test: Binding -> bool, i: nat)
    requires i <= |bindings| && (i < |bindings| ==> test(bindings[i]))
    requires forall k :: 0 <= k < i ==> !test(bindings[k])
    ensures First(bindings, test) == i
  {
    var j := First(bindings, test);
    assert j < |bindings| ==> test(bindings[j]);
  }
}
