/** What binding, invalidating and queueing do to the table of ActorTable, read off its bindings and its queue. */
module ActorLife {
  import opened ActorTable

  predicate HasLiveKey(t: Table, key: nat) {
    exists b :: b in t.bindings && b.live && b.key == key
  }

  predicate AllLive(t: Table) {
    forall b :: b in t.bindings ==> b.live
  }

  lemma FirstFinds(bindings: seq<Binding>, test: Binding -> bool, b: Binding)
    requires b in bindings && test(b)
    ensures First(bindings, test) < |bindings|
  {
    var i :| 0 <= i < |bindings| && bindings[i] == b;
    assert test(bindings[i]);
  }

  lemma OneLiveKey(t: Table, a: Binding, b: Binding)
    requires BindingsOk(t) && a in t.bindings && b in t.bindings && a.live && b.live && a.key == b.key
    ensures a == b
  {
    var i :| 0 <= i < |t.bindings| && t.bindings[i] == a;
    var j :| 0 <= j < |t.bindings| && t.bindings[j] == b;
    ApartKeys(t, i, j);
    ApartKeys(t, j, i);
  }

  lemma ApartKeys(t: Table, i: nat, j: nat)
    requires BindingsOk(t) && i < |t.bindings| && j < |t.bindings|
    ensures i < j && t.bindings[i].live && t.bindings[j].live ==> t.bindings[i].key != t.bindings[j].key
  {
    if i < j {
      assert Apart(t.bindings[i], t.bindings[j]);
    }
  }

  lemma KeyFound(t: Table, key: nat)
    requires BindingsOk(t) && key != 0
    ensures First(t.bindings, HasKey(key)) < |t.bindings| <==> HasLiveKey(t, key)
    ensures forall b :: b in t.bindings && b.live && b.key == key ==> FindKey(t, key) == b
  {
    hide First;
    var i := First(t.bindings, HasKey(key));
    forall b | b in t.bindings && b.live && b.key == key ensures i < |t.bindings| && FindKey(t, key) == b {
      FirstFinds(t.bindings, HasKey(key), b);
      assert HasKey(key)(t.bindings[i]);
      OneLiveKey(t, t.bindings[i], b);
    }
    if i < |t.bindings| {
      assert HasKey(key)(t.bindings[i]) && t.bindings[i] in t.bindings;
    }
  }

  lemma FreeFound(t: Table)
    ensures First(t.bindings, IsFree()) < |t.bindings| <==> !AllLive(t)
  {
    hide First;
    var i := First(t.bindings, IsFree());
    if i < |t.bindings| {
      assert !t.bindings[i].live && t.bindings[i] in t.bindings;
    }
    if !AllLive(t) {
      var b :| b in t.bindings && !b.live;
      FirstFinds(t.bindings, IsFree(), b);
    }
  }

  /**
    Binding a key: a live binding of the key is given back to its own owner and to nobody else; otherwise, while a
    binding is free, the actor gets the next identity in the current scene, beside every live binding there was.
  */
  lemma BindsExactly(t: Table, taken: nat, key: nat, owner: nat)
    requires Inv(t, taken) && t.nextId < MAX
    ensures var r := Bind(t, key, owner);
            var fresh_ := Binding(t.nextId + 1, t.epoch, key, owner, true);
            && (key == 0 ==> r == Bound(t, NO_BINDING))
            && (forall b :: b in t.bindings && b.live && b.key == key ==>
                  r == Bound(t, if b.owner == owner then b else NO_BINDING))
            && (key != 0 && !HasLiveKey(t, key) ==>
                  if AllLive(t) then r == Bound(t, NO_BINDING)
                  else
                    && r.binding == fresh_ && OwnedActor(r.table, t.nextId + 1, owner)
                    && forall b: Binding :: b.live ==> (b in r.table.bindings <==> b in t.bindings || b == fresh_))
  {
    var r := Bind(t, key, owner);
    KeysNotZero(t, taken);
    if key != 0 {
      KeyFound(t, key);
      FreeFound(t);
      hide First;
      if !HasLiveKey(t, key) && !AllLive(t) {
        var i := First(t.bindings, IsFree());
        assert FindKey(t, key) == NO_BINDING;
        assert r.table.bindings == t.bindings[i := r.binding];
        LiveReplaced(t.bindings, i, r.binding);
        assert r.table.bindings[i] == r.binding;
      }
    }
  }

  lemma KeysNotZero(t: Table, taken: nat)
    requires Inv(t, taken)
    ensures forall b :: b in t.bindings && b.live ==> b.key != 0
  {
    forall b | b in t.bindings && b.live ensures b.key != 0 {
      var i :| 0 <= i < |t.bindings| && t.bindings[i] == b;
      assert BindingOk(t, t.bindings[i]);
    }
  }

  lemma LiveReplaced(s: seq<Binding>, i: nat, b: Binding)
    requires i < |s| && !s[i].live
    ensures forall x: Binding :: x.live ==> (x in s[i := b] <==> x in s || x == b)
  {
    var u := s[i := b];
    forall x: Binding | x.live ensures x in u <==> x in s || x == b {
      if x in s {
        var k :| 0 <= k < |s| && s[k] == x;
        assert u[k] == x;
      }
      assert u[i] == b;
    }
  }

  /** Invalidating a key retires the identity of its live binding and leaves every other live binding. */
  lemma InvalidatesExactly(t: Table, taken: nat, key: nat)
    requires Inv(t, taken) && key != 0
    ensures var r := Invalidate(t, key);
            && (!HasLiveKey(t, key) ==> r == Bound(t, NO_BINDING))
            && (forall b :: b in t.bindings && b.live && b.key == key ==>
                  && r.binding == b && Retired(r.table, b.id)
                  && forall x: Binding :: x.live ==> (x in r.table.bindings <==> x in t.bindings && x != b))
  {
    KeyFound(t, key);
    hide First;
    forall b | b in t.bindings && b.live && b.key == key
      ensures var r := Invalidate(t, key);
              && r.binding == b && Retired(r.table, b.id)
              && forall x: Binding :: x.live ==> (x in r.table.bindings <==> x in t.bindings && x != b)
    {
      var i := First(t.bindings, HasKey(key));
      assert t.bindings[i] == b;
      LiveRemoved(t, i);
    }
  }

  lemma LiveRemoved(t: Table, i: nat)
    requires BindingsOk(t) && i < |t.bindings| && t.bindings[i].live
    ensures var b := t.bindings[i];
            var u := t.(bindings := t.bindings[i := b.(live := false)]);
            && Retired(u, b.id)
            && forall x: Binding :: x.live ==> (x in u.bindings <==> x in t.bindings && x != b)
  {
    var b := t.bindings[i];
    var u := t.(bindings := t.bindings[i := b.(live := false)]);
    assert BindingOk(t, b);
    forall x: Binding | x.live ensures x in u.bindings <==> x in t.bindings && x != b {
      if x in u.bindings {
        var k :| 0 <= k < |u.bindings| && u.bindings[k] == x;
        assert k != i && t.bindings[k] == x;
        OtherSlot(t, i, k);
      }
      if x in t.bindings && x != b {
        var k :| 0 <= k < |t.bindings| && t.bindings[k] == x;
        assert u.bindings[k] == x;
      }
    }
    forall x | x in u.bindings && x.live ensures x.id != b.id {
      var k :| 0 <= k < |u.bindings| && u.bindings[k] == x;
      OtherSlot(t, i, k);
    }
  }

  lemma OtherSlot(t: Table, i: nat, k: nat)
    requires BindingsOk(t) && i < |t.bindings| && k < |t.bindings| && k != i && t.bindings[i].live
    ensures t.bindings[k].id != t.bindings[i].id
  {
    assert BindingOk(t, t.bindings[i]);
    if i < k {
      assert Apart(t.bindings[i], t.bindings[k]);
    } else {
      assert Apart(t.bindings[k], t.bindings[i]);
    }
  }

  /** Leaving a scene retires every actor and empties the queue. */
  lemma ExitRetires(t: Table, taken: nat)
    requires Inv(t, taken) && t.epoch < MAX
    ensures var u := SceneExit(t);
            && u.queue == [] && u.epoch == t.epoch + 1
            && (forall b :: b in u.bindings ==> !b.live)
            && forall b :: b in t.bindings && b.live ==> Retired(u, b.id)
  {
    var u := SceneExit(t);
    forall b | b in t.bindings && b.live ensures b.id != 0 && b.id <= t.nextId {
      var i :| 0 <= i < |t.bindings| && t.bindings[i] == b;
      assert BindingOk(t, t.bindings[i]);
    }
    forall b | b in u.bindings ensures !b.live {
      var i :| 0 <= i < |u.bindings| && u.bindings[i] == b;
      assert u.bindings[i] == t.bindings[i].(live := false);
    }
  }

  // ---- The queue ----

  /** What a run admits, in order: authorised commands that find room, stamped. */
  function Admitted(t: Table, steps: seq<Step>): seq<Command>
    decreases |steps|
  {
    if steps == [] then []
    else
      var first :=
        match steps[0]
        case Enqueues(c) =>
          if Authorize(t, c) == Accepted && |t.queue| < QUEUE_CAPACITY
          then [c.(inputEpoch := t.inputEpoch, sequence := t.nextSequence + 1)] else []
        case _ => [];
      first + Admitted(Next(t, steps[0]), steps[1..])
  }

  predicate Undisturbed(steps: seq<Step>) {
    forall i :: 0 <= i < |steps| ==> !steps[i].Fences? && !steps[i].Exits?
  }

  lemma QueueStep(t: Table, step: Step, taken: nat)
    requires Inv(t, taken) && taken < MAX - 1 && !step.Fences? && !step.Exits?
    ensures t.queue + Admitted(t, [step])
         == (if step.Pops? && t.queue != [] then [t.queue[0]] else []) + Next(t, step).queue
  {
    hide Authorize, First, BindingsOk;
    assert [step][1..] == [];
    assert Admitted(Next(t, step), []) == [];
    if step.Enqueues? {
      assert Increment(t.nextSequence) == t.nextSequence + 1;
    }
  }

  /** First in, first out and nothing lost: between fences what was waiting and admitted is popped or still waits. */
  lemma {:induction false} QueueConserved(t: Table, steps: seq<Step>, taken: nat)
    requires Inv(t, taken) && taken + |steps| < MAX && Undisturbed(steps)
    ensures t.queue + Admitted(t, steps) == Popped(t, steps) + Run(t, steps).queue
    decreases |steps|
  {
    hide Next, Inv, Authorize;
    if steps != [] {
      StepKeeps(t, steps[0], taken);
      QueueStep(t, steps[0], taken);
      AdmittedFirst(t, steps);
      var u := Next(t, steps[0]);
      QueueConserved(u, steps[1..], taken + 1);
      var head := if steps[0].Pops? && t.queue != [] then [t.queue[0]] else [];
      calc {
        t.queue + Admitted(t, steps);
        t.queue + (Admitted(t, [steps[0]]) + Admitted(u, steps[1..]));
        (t.queue + Admitted(t, [steps[0]])) + Admitted(u, steps[1..]);
        head + u.queue + Admitted(u, steps[1..]);
        head + (u.queue + Admitted(u, steps[1..]));
        head + (Popped(u, steps[1..]) + Run(u, steps[1..]).queue);
        Popped(t, steps) + Run(t, steps).queue;
      }
    }
  }

  lemma AdmittedFirst(t: Table, steps: seq<Step>)
    requires steps != []
    ensures Admitted(t, steps) == Admitted(t, [steps[0]]) + Admitted(Next(t, steps[0]), steps[1..])
  {
    hide Next, Authorize;
    assert [steps[0]][1..] == [];
    assert Admitted(Next(t, steps[0]), []) == [];
  }
}
