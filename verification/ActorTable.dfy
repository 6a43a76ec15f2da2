/**
  Actor identities, the command queue and the input fence (src/bridge/actor_commands.cpp) as a transition function on
  one table. Counters are 64 bits wide and wrap; the properties of whole runs hold for runs short enough not to.
*/
module ActorTable {
  const MAX: nat := 0xffff_ffff_ffff_ffff
  const CAPACITY := 8
  const QUEUE_CAPACITY := 32
  const NO_NATIVE_ID: nat := 0xffff_ffff

  datatype Verb =
    | Move | Jump | Attack | Stop | Retire | Approach | Engage | Pickup | Social | Combat | Steer | SteerStop
    | Collect | Forage

  datatype Command = Command(
    sequence: nat, actor: nat, target: nat, owner: nat, verb: Verb, direction: int, inputEpoch: nat,
    targetGeneration: nat, targetNativeId: nat)

  datatype Binding = Binding(id: nat, epoch: nat, key: nat, owner: nat, live: bool)

  const NO_BINDING := Binding(0, 0, 0, 0, false)

  datatype Decision = Accepted | UnknownActor | WrongOwner | StaleScene | InvalidTarget | Full | InputsFenced

  datatype Table = Table(
    bindings: seq<Binding>, queue: seq<Command>, epoch: nat, nextId: nat, nextSequence: nat, inputEpoch: nat,
    ready: bool)

  function Increment(x: nat): nat {
    (x + 1) % 0x1_0000_0000_0000_0000
  }

  /** The first binding that matches, or no binding. */
  function First(bindings: seq<Binding>, test: Binding -> bool): (i: nat)
    ensures i <= |bindings|
    ensures i < |bindings| ==> test(bindings[i])
    ensures forall k :: 0 <= k < i ==> !test(bindings[k])
  {
    if bindings == [] || test(bindings[0]) then 0 else 1 + First(bindings[1..], test)
  }

  function Pick(bindings: seq<Binding>, i: nat): Binding {
    if i < |bindings| then bindings[i] else NO_BINDING
  }

  function HasId(id: nat): Binding -> bool {
    (b: Binding) => id != 0 && b.id == id
  }

  function HasKey(key: nat): Binding -> bool {
    (b: Binding) => key != 0 && b.key == key && b.live
  }

  function IsFree(): Binding -> bool {
    (b: Binding) => !b.live
  }

  function Find(t: Table, id: nat): Binding {
    Pick(t.bindings, First(t.bindings, HasId(id)))
  }

  function FindKey(t: Table, key: nat): Binding {
    Pick(t.bindings, First(t.bindings, HasKey(key)))
  }

  datatype Bound = Bound(table: Table, binding: Binding)

  function Bind(t: Table, key: nat, owner: nat): Bound {
    if key == 0 then Bound(t, NO_BINDING)
    else
      var known := FindKey(t, key);
      if known.live then Bound(t, if known.owner == owner then known else NO_BINDING)
      else
        var i := First(t.bindings, IsFree());
        if i == |t.bindings| then Bound(t, NO_BINDING)
        else
          var b := Binding(Increment(t.nextId), t.epoch, key, owner, true);
          Bound(t.(nextId := b.id, bindings := t.bindings[i := b]), b)
  }

  /** The returned binding is the one from before, still marked live. */
  function Invalidate(t: Table, key: nat): Bound {
    var i := First(t.bindings, HasKey(key));
    if i == |t.bindings| then Bound(t, NO_BINDING)
    else Bound(t.(bindings := t.bindings[i := t.bindings[i].(live := false)]), t.bindings[i])
  }

  function Killed(bindings: seq<Binding>): (killed: seq<Binding>)
    ensures |killed| == |bindings|
    ensures forall i :: 0 <= i < |bindings| ==> killed[i] == bindings[i].(live := false)
  {
    if bindings == [] then [] else [bindings[0].(live := false)] + Killed(bindings[1..])
  }

  function SceneExit(t: Table): Table {
    t.(bindings := Killed(t.bindings), epoch := Increment(t.epoch), queue := [])
  }

  function FenceInputs(t: Table): Table {
    var epoch := if t.ready && t.inputEpoch != MAX then Increment(t.inputEpoch) else t.inputEpoch;
    t.(ready := false, inputEpoch := epoch, queue := [])
  }

  predicate CanResume(t: Table, fencedEpoch: nat) {
    !t.ready && fencedEpoch != 0 && fencedEpoch == t.inputEpoch && t.inputEpoch != MAX
  }

  function ResumeInputs(t: Table, fencedEpoch: nat): Table {
    if CanResume(t, fencedEpoch) then t.(ready := true) else t
  }

  predicate Targeted(verb: Verb) {
    verb == Attack || verb == Approach || verb == Engage || verb == Pickup || verb == Social || verb == Combat
  }

  function Authorize(t: Table, c: Command): Decision {
    if !t.ready || (c.inputEpoch != 0 && c.inputEpoch != t.inputEpoch) then InputsFenced
    else
      var actor := Find(t, c.actor);
      if !actor.live then UnknownActor
      else if actor.epoch != t.epoch then StaleScene
      else if c.owner == 0 || actor.owner != c.owner then WrongOwner
      else if c.verb == Collect && (c.target == 0 || c.targetGeneration == 0 || c.targetNativeId == NO_NATIVE_ID)
      then InvalidTarget
      else if Targeted(c.verb) then
        var target := Find(t, c.target);
        if !target.live || target.epoch != t.epoch || target.id == actor.id then InvalidTarget else Accepted
      else Accepted
  }

  function Stamped(t: Table, c: Command): Command {
    c.(inputEpoch := t.inputEpoch, sequence := Increment(t.nextSequence))
  }

  function Admission(t: Table, c: Command): Decision {
    var d := Authorize(t, c);
    if d == Accepted && |t.queue| == QUEUE_CAPACITY then Full else d
  }

  function Enqueue(t: Table, c: Command): Table {
    if Admission(t, c) != Accepted then t
    else t.(nextSequence := Increment(t.nextSequence), queue := t.queue + [Stamped(t, c)])
  }

  function Pop(t: Table): Table {
    if t.queue == [] then t else t.(queue := t.queue[1..])
  }

  const START := Table([NO_BINDING, NO_BINDING, NO_BINDING, NO_BINDING, NO_BINDING, NO_BINDING, NO_BINDING, NO_BINDING],
                       [], 1, 0, 0, 1, true)

  // ---- Steps ----

  datatype Step =
    | Binds(key: nat, owner: nat)
    | Invalidates(key: nat)
    | Exits
    | Fences
    | Resumes(fencedEpoch: nat)
    | Enqueues(command: Command)
    | Pops

  function Next(t: Table, step: Step): Table {
    match step
    case Binds(key, owner) => Bind(t, key, owner).table
    case Invalidates(key) => Invalidate(t, key).table
    case Exits => SceneExit(t)
    case Fences => FenceInputs(t)
    case Resumes(e) => ResumeInputs(t, e)
    case Enqueues(c) => Enqueue(t, c)
    case Pops => Pop(t)
  }

  function Run(t: Table, steps: seq<Step>): Table
    decreases |steps|
  {
    if steps == [] then t else Run(Next(t, steps[0]), steps[1..])
  }

  /** Identities are issued once; live bindings belong to the current scene; the queue belongs to the current fence. */
  predicate BindingsOk(t: Table) {
    && |t.bindings| == CAPACITY
    && (forall i :: 0 <= i < CAPACITY ==> BindingOk(t, t.bindings[i]))
    && (forall i, j :: 0 <= i < j < CAPACITY ==> Apart(t.bindings[i], t.bindings[j]))
  }

  predicate BindingOk(t: Table, b: Binding) {
    && b.id <= t.nextId && (b.live ==> b.id != 0 && b.key != 0 && b.epoch == t.epoch)
  }

  predicate Apart(a: Binding, b: Binding) {
    (a.id != 0 ==> a.id != b.id) && (a.live && b.live ==> a.key != b.key)
  }

  predicate QueueOk(t: Table) {
    && |t.queue| <= QUEUE_CAPACITY && (t.ready || t.queue == [])
    && (forall i :: 0 <= i < |t.queue| ==>
          t.queue[i].inputEpoch == t.inputEpoch && t.queue[i].sequence <= t.nextSequence)
    && (forall i, j :: 0 <= i < j < |t.queue| ==> t.queue[i].sequence < t.queue[j].sequence)
  }

  predicate Inv(t: Table, taken: nat) {
    && BindingsOk(t) && QueueOk(t)
    && t.nextId <= taken && t.nextSequence <= taken && t.epoch <= taken + 1 && 1 <= t.inputEpoch <= MAX
  }

  lemma BindKeeps(t: Table, key: nat, owner: nat)
    requires BindingsOk(t) && t.nextId < MAX
    ensures BindingsOk(Bind(t, key, owner).table)
  {
    var free := First(t.bindings, IsFree());
    var u := Bind(t, key, owner).table;
    var i := First(t.bindings, HasKey(key));
    if u != t {
      assert Increment(t.nextId) == t.nextId + 1;
      assert i == CAPACITY;
      forall k | 0 <= k < CAPACITY ensures BindingOk(u, u.bindings[k]) {
        assert BindingOk(t, t.bindings[k]);
      }
      forall k, l | 0 <= k < l < CAPACITY ensures Apart(u.bindings[k], u.bindings[l]) {
        assert Apart(t.bindings[k], t.bindings[l]);
        assert BindingOk(t, t.bindings[k]) && BindingOk(t, t.bindings[l]);
        assert !HasKey(key)(t.bindings[k]) && !HasKey(key)(t.bindings[l]);
      }
    }
  }

  /** Marking bindings dead keeps them in order. */
  lemma KillKeeps(t: Table, u: Table)
    requires BindingsOk(t) && |u.bindings| == CAPACITY && u.nextId == t.nextId
    requires forall i :: 0 <= i < CAPACITY ==>
               u.bindings[i] == t.bindings[i].(live := false) || (u.bindings[i] == t.bindings[i] && u.epoch == t.epoch)
    ensures BindingsOk(u)
  {
    forall k | 0 <= k < CAPACITY ensures BindingOk(u, u.bindings[k]) {
      assert BindingOk(t, t.bindings[k]);
    }
    forall k, l | 0 <= k < l < CAPACITY ensures Apart(u.bindings[k], u.bindings[l]) {
      assert Apart(t.bindings[k], t.bindings[l]);
    }
  }

  lemma QueueKeeps(t: Table, step: Step)
    requires QueueOk(t) && t.nextSequence < MAX && t.inputEpoch <= MAX
    ensures QueueOk(Next(t, step))
  {
    hide Authorize, First, Find, FindKey;
    match step
    case Enqueues(c) =>
      assert Admission(t, c) == Accepted ==> t.ready by {
        AcceptedReady(t, c);
      }
    case _ =>
  }

  lemma AcceptedReady(t: Table, c: Command)
    ensures Admission(t, c) == Accepted ==> t.ready && (c.inputEpoch == 0 || c.inputEpoch == t.inputEpoch)
  {
    hide Find;
  }

  lemma BindingsKeep(t: Table, step: Step)
    requires BindingsOk(t) && t.nextId < MAX
    ensures BindingsOk(Next(t, step))
  {
    hide Admission, First, BindingsOk;
    match step
    case Binds(key, owner) => BindKeeps(t, key, owner);
    case Invalidates(key) => InvalidateKeeps(t, key);
    case Exits => ExitKeeps(t);
    case _ => SameBindings(t, Next(t, step));
  }

  lemma CountersKeep(t: Table, step: Step)
    requires t.nextId < MAX && t.nextSequence < MAX && t.epoch < MAX && 1 <= t.inputEpoch <= MAX
    ensures var u := Next(t, step);
            && t.nextId <= u.nextId <= t.nextId + 1 && t.nextSequence <= u.nextSequence <= t.nextSequence + 1
            && t.epoch <= u.epoch <= t.epoch + 1 && t.inputEpoch <= u.inputEpoch <= MAX
  {
    hide Admission, First;
  }

  /** Every operation keeps the table in order. */
  lemma StepKeeps(t: Table, step: Step, taken: nat)
    requires Inv(t, taken) && taken < MAX - 1
    ensures Inv(Next(t, step), taken + 1)
  {
    hide QueueOk, BindingsOk, Next;
    QueueKeeps(t, step);
    BindingsKeep(t, step);
    CountersKeep(t, step);
  }

  lemma InvalidateKeeps(t: Table, key: nat)
    requires BindingsOk(t)
    ensures BindingsOk(Invalidate(t, key).table)
  {
    KillKeeps(t, Invalidate(t, key).table);
  }

  lemma ExitKeeps(t: Table)
    requires BindingsOk(t)
    ensures BindingsOk(SceneExit(t))
  {
    KillKeeps(t, SceneExit(t));
  }

  lemma SameBindings(t: Table, u: Table)
    requires BindingsOk(t) && u.bindings == t.bindings && u.nextId == t.nextId && u.epoch == t.epoch
    ensures BindingsOk(u)
  {}

  lemma {:induction false} RunKeeps(t: Table, steps: seq<Step>, taken: nat)
    requires Inv(t, taken) && taken + |steps| < MAX
    ensures Inv(Run(t, steps), taken + |steps|)
    decreases |steps|
  {
    if steps != [] {
      StepKeeps(t, steps[0], taken);
      RunKeeps(Next(t, steps[0]), steps[1..], taken + 1);
    }
  }

  lemma StartInv()
    ensures Inv(START, 0)
  {}

  // ---- Identities ----

  lemma FindMember(t: Table, id: nat)
    requires Find(t, id).live
    ensures id != 0 && Find(t, id).id == id && Find(t, id) in t.bindings
  {}

  /** A live actor always belongs to the current scene, so this refusal is never given. */
  lemma StaleSceneUnreachable(t: Table, taken: nat, c: Command)
    requires Inv(t, taken)
    ensures Authorize(t, c) != StaleScene
  {
    var b := Find(t, c.actor);
    if b.live {
      FindMember(t, c.actor);
      var i :| 0 <= i < |t.bindings| && t.bindings[i] == b;
      assert BindingOk(t, t.bindings[i]);
    }
  }

  predicate LiveActor(t: Table, id: nat) {
    exists b :: b in t.bindings && b.live && b.id == id
  }

  predicate OwnedActor(t: Table, id: nat, owner: nat) {
    exists b :: b in t.bindings && b.live && b.id == id && b.owner == owner
  }

  /** An identity is found live exactly when a live binding has it, and then it is that binding. */
  lemma FindLive(t: Table, b: Binding)
    requires BindingsOk(t) && b in t.bindings && b.live
    ensures b.id != 0 && Find(t, b.id) == b
  {
    var i :| 0 <= i < |t.bindings| && t.bindings[i] == b;
    assert BindingOk(t, t.bindings[i]);
    var j := First(t.bindings, HasId(b.id));
    assert HasId(b.id)(t.bindings[i]);
    forall k | 0 <= k < i ensures !HasId(b.id)(t.bindings[k]) {
      assert Apart(t.bindings[k], t.bindings[i]);
    }
    assert j <= i && (j < |t.bindings| ==> HasId(b.id)(t.bindings[j]));
  }

  lemma FoundExactly(t: Table, id: nat, owner: nat)
    requires BindingsOk(t)
    ensures Find(t, id).live <==> LiveActor(t, id)
    ensures Find(t, id).live && Find(t, id).owner == owner <==> OwnedActor(t, id, owner)
    ensures Find(t, id).live ==> Find(t, id).id == id && Find(t, id).epoch == t.epoch
  {
    hide First, Find;
    if Find(t, id).live {
      FindMember(t, id);
      var i :| 0 <= i < |t.bindings| && t.bindings[i] == Find(t, id);
      assert BindingOk(t, t.bindings[i]);
    }
    forall b | b in t.bindings && b.live && b.id == id ensures Find(t, id) == b {
      FindLive(t, b);
    }
  }

  /** What may be admitted, read off the bindings: a live actor of this owner, and a live other target where due. */
  lemma AcceptedExactly(t: Table, taken: nat, c: Command)
    requires Inv(t, taken)
    ensures Authorize(t, c) == Accepted <==>
              && t.ready && (c.inputEpoch == 0 || c.inputEpoch == t.inputEpoch)
              && c.owner != 0 && OwnedActor(t, c.actor, c.owner)
              && (c.verb == Collect ==> c.target != 0 && c.targetGeneration != 0 && c.targetNativeId != NO_NATIVE_ID)
              && (c.verb in {Attack, Approach, Engage, Pickup, Social, Combat} ==>
                    c.target != c.actor && LiveActor(t, c.target))
  {
    FoundExactly(t, c.actor, c.owner);
    FoundExactly(t, c.target, 0);
    hide Find, OwnedActor, LiveActor, BindingsOk;
  }

  /** This identity was issued and is in use no more. */
  predicate Retired(t: Table, id: nat) {
    id != 0 && id <= t.nextId && forall b :: b in t.bindings && b.live ==> b.id != id
  }

  lemma StillRetired(t: Table, step: Step, id: nat)
    requires t.nextId < MAX && Retired(t, id)
    ensures Retired(Next(t, step), id)
  {
    hide Authorize;
    var u := Next(t, step);
    forall b | b in u.bindings && b.live ensures b.id != id {
      var i :| 0 <= i < |u.bindings| && u.bindings[i] == b;
      assert b == u.bindings[i];
      if i < |t.bindings| && t.bindings[i] == b {
        assert t.bindings[i] in t.bindings;
      }
    }
  }

  lemma RetiredRefused(t: Table, c: Command)
    requires Retired(t, c.actor)
    ensures Authorize(t, c) == InputsFenced || Authorize(t, c) == UnknownActor
  {
    if Find(t, c.actor).live {
      FindMember(t, c.actor);
    }
  }

  /** A retired identity is never authorised again, nor accepted as a target, even when its key is bound anew. */
  lemma {:induction false} RetiredForever(t: Table, steps: seq<Step>, taken: nat, c: Command)
    requires Inv(t, taken) && taken + |steps| < MAX && Retired(t, c.actor)
    ensures Retired(Run(t, steps), c.actor)
    ensures var d := Authorize(Run(t, steps), c); d == InputsFenced || d == UnknownActor
    decreases |steps|
  {
    if steps == [] {
      RetiredRefused(t, c);
    } else {
      StepKeeps(t, steps[0], taken);
      StillRetired(t, steps[0], c.actor);
      RetiredForever(Next(t, steps[0]), steps[1..], taken + 1, c);
    }
  }

  lemma {:induction false} RetiredTarget(t: Table, steps: seq<Step>, taken: nat, c: Command)
    requires Inv(t, taken) && taken + |steps| < MAX && Retired(t, c.target) && Targeted(c.verb)
    ensures Authorize(Run(t, steps), c) != Accepted
    decreases |steps|
  {
    if steps == [] {
      if Find(t, c.target).live {
        FindMember(t, c.target);
      }
    } else {
      StepKeeps(t, steps[0], taken);
      StillRetired(t, steps[0], c.target);
      RetiredTarget(Next(t, steps[0]), steps[1..], taken + 1, c);
    }
  }

  /** Every binding with an issued identity that is still in the table is the binding as it was issued. */
  predicate Kept(a: Binding, b: Binding) {
    b.id == a.id && b.key == a.key && b.owner == a.owner && b.epoch == a.epoch && (b.live ==> a.live)
  }

  lemma StepKeepsIdentity(t: Table, step: Step, taken: nat, i: nat)
    requires Inv(t, taken) && taken < MAX - 1 && i < CAPACITY
    ensures |Next(t, step).bindings| == CAPACITY
    ensures var b := Next(t, step).bindings[i];
            Kept(t.bindings[i], b) || (b.live && !t.bindings[i].live && b.id == t.nextId + 1)
  {
    hide Authorize;
    StepKeeps(t, step, taken);
  }

  /** Identity, owner and key never change: what a slot holds later is what it held, or a newer identity. */
  lemma {:induction false} IdentityConstant(t: Table, steps: seq<Step>, taken: nat, i: nat)
    requires Inv(t, taken) && taken + |steps| < MAX && i < CAPACITY
    ensures |Run(t, steps).bindings| == CAPACITY && t.nextId <= Run(t, steps).nextId
    ensures Kept(t.bindings[i], Run(t, steps).bindings[i]) || Run(t, steps).bindings[i].id > t.nextId
    decreases |steps|
  {
    TableSize(t, taken);
    hide Inv, Next;
    if steps != [] {
      StepKeeps(t, steps[0], taken);
      CountersGrow(t, steps[0], taken);
      StepKeepsIdentity(t, steps[0], taken, i);
      IdentityConstant(Next(t, steps[0]), steps[1..], taken + 1, i);
    }
  }

  lemma TableSize(t: Table, taken: nat)
    requires Inv(t, taken)
    ensures |t.bindings| == CAPACITY
  {}

  lemma CountersGrow(t: Table, step: Step, taken: nat)
    requires Inv(t, taken) && taken < MAX - 1
    ensures var u := Next(t, step);
            && |t.bindings| == CAPACITY && t.nextId <= u.nextId && t.nextSequence <= u.nextSequence
            && t.inputEpoch <= u.inputEpoch
  {
    hide Next;
    CountersKeep(t, step);
  }

  // ---- Fences ----

  /** A command stamped with this epoch can never be authorised again. */
  predicate Behind(t: Table, stamp: nat) {
    stamp < t.inputEpoch || (stamp == t.inputEpoch == MAX && !t.ready)
  }

  /** Between the stamp and the next fence inputs stay ready under the stamped epoch. */
  predicate Current(t: Table, stamp: nat) {
    t.ready && stamp == t.inputEpoch
  }

  lemma FenceStep(t: Table, step: Step, stamp: nat)
    requires t.inputEpoch <= MAX && (Behind(t, stamp) || Current(t, stamp))
    ensures var u := Next(t, step);
            && u.inputEpoch <= MAX
            && (Behind(u, stamp) || (Current(u, stamp) && Current(t, stamp) && !step.Fences?))
  {
    hide Authorize, First;
  }

  /** After a fence a stamped command from before it is refused for ever, also when the epoch cannot grow any more. */
  lemma {:induction false} StampedRefused(t: Table, steps: seq<Step>, c: Command, i: nat)
    requires t.inputEpoch <= MAX && c.inputEpoch != 0 && (Behind(t, c.inputEpoch) || Current(t, c.inputEpoch))
    requires Behind(t, c.inputEpoch) || (i < |steps| && steps[i].Fences?)
    ensures Behind(Run(t, steps), c.inputEpoch) && Authorize(Run(t, steps), c) == InputsFenced
    decreases |steps|
  {
    hide Next;
    if steps != [] {
      FenceStep(t, steps[0], c.inputEpoch);
      StampedRefused(Next(t, steps[0]), steps[1..], c, if i > 0 then i - 1 else 0);
    }
  }

  /** What the queue admits is stamped with the current epoch, so the refusal above applies to it. */
  lemma AdmittedIsCurrent(t: Table, c: Command)
    requires Admission(t, c) == Accepted
    ensures Current(Enqueue(t, c), Stamped(t, c).inputEpoch)
    ensures Enqueue(t, c).queue == t.queue + [Stamped(t, c)]
  {
    AcceptedReady(t, c);
  }

  predicate NoResume(steps: seq<Step>) {
    forall i :: 0 <= i < |steps| ==> !steps[i].Resumes?
  }

  /** Until they are resumed fenced inputs stay fenced, under the epoch of the fence, whatever else is done. */
  lemma {:induction false} StaysFenced(t: Table, steps: seq<Step>)
    requires !t.ready && NoResume(steps)
    ensures var u := Run(t, steps); !u.ready && u.inputEpoch == t.inputEpoch
    decreases |steps|
  {
    if steps != [] {
      hide Authorize, First;
      assert !Next(t, steps[0]).ready && Next(t, steps[0]).inputEpoch == t.inputEpoch;
      StaysFenced(Next(t, steps[0]), steps[1..]);
    }
  }

  /** A command without a target, not stamped, of the owner of a live actor. */
  predicate OwnersPlain(t: Table, c: Command) {
    && c.inputEpoch == 0 && c.owner != 0 && OwnedActor(t, c.actor, c.owner)
    && c.verb != Collect && !Targeted(c.verb)
  }

  lemma OwnerAuthorized(t: Table, taken: nat, c: Command)
    requires Inv(t, taken) && t.ready && OwnersPlain(t, c)
    ensures Authorize(t, c) == Accepted
  {
    AcceptedExactly(t, taken, c);
    hide Authorize, Inv, OwnedActor;
  }

  /**
    From construction: after a fence at any time and anything but a resumption, inputs are resumed exactly by the epoch
    that the fence returned, below the last one, and then an owner's commands are authorised again.
  */
  lemma ResumedExactly(before: seq<Step>, between: seq<Step>, epoch: nat, c: Command)
    requires |before| + |between| + 2 < MAX && NoResume(between)
    ensures var t := Run(START, before);
            var fenced := FenceInputs(t);
            var u := Run(fenced, between);
            var v := ResumeInputs(u, epoch);
            && !u.ready && (t.ready && t.inputEpoch < MAX ==> fenced.inputEpoch == t.inputEpoch + 1)
            && (v.ready <==> epoch == fenced.inputEpoch && epoch != MAX)
            && (!v.ready ==> v == u)
            && (v.ready && OwnersPlain(u, c) ==> Authorize(v, c) == Accepted)
  {
    var t := Run(START, before);
    var f := FenceInputs(t);
    var u := Run(f, between);
    var v := ResumeInputs(u, epoch);
    var taken := |before| + 1 + |between|;
    FencedFrom(before, between);
    ResumeOne(u, epoch);
    hide Run, Inv, Authorize, OwnersPlain, ResumeInputs, FenceInputs;
    if v.ready && OwnersPlain(u, c) {
      StepKeeps(u, Resumes(epoch), taken);
      assert Next(u, Resumes(epoch)) == v;
      SameOwned(u, v, c);
      OwnerAuthorized(v, taken + 1, c);
    }
  }

  lemma FencedFrom(before: seq<Step>, between: seq<Step>)
    requires |before| + |between| + 2 < MAX && NoResume(between)
    ensures var t := Run(START, before);
            var f := FenceInputs(t);
            var u := Run(f, between);
            && Inv(u, |before| + 1 + |between|) && !u.ready && u.inputEpoch == f.inputEpoch && 1 <= u.inputEpoch
            && (t.ready && t.inputEpoch < MAX ==> f.inputEpoch == t.inputEpoch + 1)
  {
    var t := Run(START, before);
    hide *;
    StartInv();
    RunKeeps(START, before, 0);
    FenceOnce(t, |before|);
    RunKeeps(FenceInputs(t), between, |before| + 1);
    StaysFenced(FenceInputs(t), between);
  }

  lemma FenceOnce(t: Table, taken: nat)
    requires Inv(t, taken) && taken < MAX - 1
    ensures var f := FenceInputs(t);
            && Inv(f, taken + 1) && !f.ready && 1 <= f.inputEpoch
            && (t.ready && t.inputEpoch < MAX ==> f.inputEpoch == t.inputEpoch + 1)
  {
    StepKeeps(t, Fences, taken);
    hide BindingsOk, QueueOk;
  }

  lemma ResumeOne(u: Table, epoch: nat)
    requires !u.ready && 1 <= u.inputEpoch
    ensures var v := ResumeInputs(u, epoch);
            && (v.ready <==> epoch == u.inputEpoch && epoch != MAX) && (!v.ready ==> v == u) && v.bindings == u.bindings
  {}

  lemma SameOwned(t: Table, u: Table, c: Command)
    requires u.bindings == t.bindings
    ensures OwnersPlain(u, c) == OwnersPlain(t, c)
  {}

  // ---- The queue ----

  /** The commands that a run takes out of the queue, in order. */
  function Popped(t: Table, steps: seq<Step>): seq<Command>
    decreases |steps|
  {
    if steps == [] then []
    else (if steps[0].Pops? && t.queue != [] then [t.queue[0]] else []) + Popped(Next(t, steps[0]), steps[1..])
  }

  predicate Ascending(cs: seq<Command>, above: nat) {
    && (forall i :: 0 <= i < |cs| ==> cs[i].sequence > above)
    && (forall i, j :: 0 <= i < j < |cs| ==> cs[i].sequence < cs[j].sequence)
  }

  predicate QueueAbove(t: Table, above: nat) {
    above <= t.nextSequence && forall i :: 0 <= i < |t.queue| ==> t.queue[i].sequence > above
  }

  lemma StepAbove(t: Table, step: Step, taken: nat, above: nat)
    requires Inv(t, taken) && taken < MAX - 1 && QueueAbove(t, above)
    ensures QueueAbove(Next(t, step), if step.Pops? && t.queue != [] then t.queue[0].sequence else above)
  {
    hide Authorize, First, BindingsOk;
  }

  /** First in, first out, with strictly increasing sequence numbers, across fences and scene exits. */
  lemma {:induction false} PoppedAscending(t: Table, steps: seq<Step>, taken: nat, above: nat)
    requires Inv(t, taken) && taken + |steps| < MAX && QueueAbove(t, above)
    ensures Ascending(Popped(t, steps), above)
    decreases |steps|
  {
    hide Next, Inv;
    if steps != [] {
      StepKeeps(t, steps[0], taken);
      StepAbove(t, steps[0], taken, above);
      var later := if steps[0].Pops? && t.queue != [] then t.queue[0].sequence else above;
      PoppedAscending(Next(t, steps[0]), steps[1..], taken + 1, later);
    }
  }

  // ---- From construction on ----

  lemma {:induction false} RunConcat(t: Table, a: seq<Step>, b: seq<Step>)
    ensures Run(t, a + b) == Run(Run(t, a), b)
    decreases |a|
  {
    hide Next;
    if a == [] {
      assert a + b == b;
    } else {
      assert (a + b)[1..] == a[1..] + b;
      RunConcat(Next(t, a[0]), a[1..], b);
    }
  }

  /** Every table a run can reach is in order, and none of them gives the stale-scene refusal. */
  lemma ReachableInOrder(steps: seq<Step>, c: Command)
    requires |steps| < MAX
    ensures Inv(Run(START, steps), |steps|) && Authorize(Run(START, steps), c) != StaleScene
  {
    StartInv();
    RunKeeps(START, steps, 0);
    StaleSceneUnreachable(Run(START, steps), |steps|, c);
  }

  /** An identity retired at any time is refused at any later time, as an actor and as a target. */
  lemma RetiredStaysRefused(before: seq<Step>, after: seq<Step>, c: Command)
    requires |before| + |after| < MAX
    ensures var t, u := Run(START, before), Run(START, before + after);
            && (Retired(t, c.actor) ==> Authorize(u, c) == InputsFenced || Authorize(u, c) == UnknownActor)
            && (Retired(t, c.target) && Targeted(c.verb) ==> Authorize(u, c) != Accepted)
  {
    ReachableInOrder(before, c);
    RunConcat(START, before, after);
    var t := Run(START, before);
    if Retired(t, c.actor) {
      RetiredForever(t, after, |before|, c);
    }
    if Retired(t, c.target) && Targeted(c.verb) {
      RetiredTarget(t, after, |before|, c);
    }
  }

  lemma RunOne(t: Table, step: Step)
    ensures Run(t, [step]) == Next(t, step)
  {
    hide Next;
    assert [step][1..] == [];
  }

  lemma StampInRange(t: Table, taken: nat, c: Command)
    requires Inv(t, taken) && Admission(t, c) == Accepted
    ensures Stamped(t, c).inputEpoch != 0 && Enqueue(t, c).inputEpoch <= MAX
  {
    hide Authorize, BindingsOk, QueueOk;
  }

  /** What the queue admitted at any time is refused as stamped at any time after a later fence. */
  lemma AdmittedThenFenced(before: seq<Step>, c: Command, after: seq<Step>, i: nat)
    requires |before| + 1 + |after| < MAX && i < |after| && after[i].Fences?
    requires Admission(Run(START, before), c) == Accepted
    ensures Authorize(Run(START, before + [Enqueues(c)] + after), Stamped(Run(START, before), c)) == InputsFenced
  {
    var t := Run(START, before);
    hide Run, Inv, Admission, Authorize, Enqueue, Behind, Current, Stamped;
    ReachableInOrder(before, c);
    StampInRange(t, |before|, c);
    AdmittedIsCurrent(t, c);
    RunConcat(START, before, [Enqueues(c)]);
    RunOne(t, Enqueues(c));
    RunConcat(START, before + [Enqueues(c)], after);
    StampedRefused(Enqueue(t, c), after, Stamped(t, c), i);
  }

  /** All commands ever popped come in strictly increasing sequence numbers. */
  lemma AllPoppedAscending(steps: seq<Step>)
    requires |steps| < MAX
    ensures Ascending(Popped(START, steps), 0)
  {
    StartInv();
    PoppedAscending(START, steps, 0, 0);
  }
}
