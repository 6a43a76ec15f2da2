/** The keyboard release held for one steering walk (src/bridge/actor_commands.h, KeyboardSteeringState). */
module KeyboardSteering {
  import opened Basics
  import opened ActorTable

  class KeyboardSteeringState {
    var active: bool
    var release: Option<Command>

    constructor ()
      ensures !active && release == None
    {
      active, release := false, None;
    }

    method Clear()
      modifies this
      ensures !active && release == None
    {
      active, release := false, None;
    }

    /** Whatever came before, the state is the one its trace says. */
    method Observe(c: Command, ghost trace: seq<Command>)
      requires active == Walking(trace) && release == Release(trace)
      modifies this
      ensures active == Walking(trace + [c]) && release == Release(trace + [c])
    {
      assert (trace + [c])[..|trace|] == trace;
      NoReleaseWhileWalking(trace);
      if c.verb == Jump {
        return;
      }
      if c.verb == Steer {
        active := true;
        release := None;
        return;
      }
      if c.verb == SteerStop {
        if active {
          release := Some(c);
        }
        active := false;
        return;
      }
      Clear();
    }
  }

  /** The trace with its trailing jumps taken off. */
  function Landed(trace: seq<Command>): (t: seq<Command>)
    ensures |t| <= |trace|
    ensures t != [] ==> t[|t| - 1].verb != Jump
  {
    if trace != [] && trace[|trace| - 1].verb == Jump then Landed(trace[..|trace| - 1]) else trace
  }

  /** The last command other than a jump is a steer. */
  predicate Walking(trace: seq<Command>) {
    var t := Landed(trace);
    t != [] && t[|t| - 1].verb == Steer
  }

  /** Of the stops that end the trace, jumps left out, the first one, when it stopped a steer. */
  function Release(trace: seq<Command>): Option<Command>
    decreases |trace|
  {
    var t := Landed(trace);
    if t == [] || t[|t| - 1].verb != SteerStop then None
    else
      var before := t[..|t| - 1];
      if Walking(before) then Some(t[|t| - 1]) else Release(before)
  }

  lemma NoReleaseWhileWalking(trace: seq<Command>)
    ensures Walking(trace) ==> Release(trace) == None
  {}

  // ---- What is held, in one formula ----

  function NoJumps(trace: seq<Command>): (t: seq<Command>)
    ensures forall i :: 0 <= i < |t| ==> t[i].verb != Jump
  {
    if trace == [] then []
    else
      var before, c := NoJumps(trace[..|trace| - 1]), trace[|trace| - 1];
      if c.verb == Jump then before else before + [c]
  }

  /** A steer at this place, and nothing but stops, at least one, after it. */
  predicate StoppedAt(t: seq<Command>, k: nat) {
    k + 1 < |t| && t[k].verb == Steer && forall i :: k < i < |t| ==> t[i].verb == SteerStop
  }

  lemma {:induction false} LandedNoJumps(trace: seq<Command>)
    ensures NoJumps(trace) == NoJumps(Landed(trace))
    ensures Landed(trace) == [] <==> NoJumps(trace) == []
    ensures var t, n := Landed(trace), NoJumps(trace);
            t != [] ==> n[|n| - 1] == t[|t| - 1] && n[..|n| - 1] == NoJumps(t[..|t| - 1])
    decreases |trace|
  {
    if trace != [] && trace[|trace| - 1].verb == Jump {
      LandedNoJumps(trace[..|trace| - 1]);
    }
  }

  ghost predicate Held(t: seq<Command>, c: Command) {
    exists k :: StoppedAt(t, k) && t[k + 1] == c
  }

  lemma HeldAfterStop(b: seq<Command>, s: Command, c: Command)
    requires s.verb == SteerStop
    ensures Held(b + [s], c) <==> if b != [] && b[|b| - 1].verb == Steer then s == c else Held(b, c)
  {
    var t := b + [s];
    if b != [] && b[|b| - 1].verb == Steer {
      assert StoppedAt(t, |b| - 1) && t[|b| - 1].verb != SteerStop;
      forall k: nat | StoppedAt(t, k) ensures k == |b| - 1 {}
    } else {
      if k: nat :| StoppedAt(t, k) && t[k + 1] == c {
        assert t[k] == b[k] && forall i :: 0 <= i < |b| ==> b[i] == t[i];
        assert StoppedAt(b, k) && b[k + 1] == t[k + 1];
      }
      if k: nat :| StoppedAt(b, k) && b[k + 1] == c {
        assert StoppedAt(t, k) && t[k + 1] == b[k + 1];
      }
    }
  }

  lemma HeldEndsInStop(t: seq<Command>, c: Command)
    requires Held(t, c)
    ensures t != [] && t[|t| - 1].verb == SteerStop
  {
    var k :| StoppedAt(t, k) && t[k + 1] == c;
    assert t[|t| - 1].verb == SteerStop;
  }

  lemma WalkingNoJumps(trace: seq<Command>)
    ensures var t := NoJumps(trace); Walking(trace) <==> t != [] && t[|t| - 1].verb == Steer
  {
    LandedNoJumps(trace);
  }

  /**
    After any trace a release is held exactly when the trace without its jumps ends in a steer followed by one or more
    stops, and it is the first of them. So it can never stop anything newer than the walk it ended.
  */
  lemma {:induction false} ReleaseIsFirstStop(trace: seq<Command>, c: Command)
    ensures Release(trace) == Some(c) <==> Held(NoJumps(trace), c)
    decreases |trace|
  {
    hide Held, NoJumps, Walking;
    var l, t := Landed(trace), NoJumps(trace);
    LandedNoJumps(trace);
    if l != [] && l[|l| - 1].verb == SteerStop {
      var before := l[..|l| - 1];
      ReleaseIsFirstStop(before, c);
      WalkingNoJumps(before);
      assert t == NoJumps(before) + [l[|l| - 1]];
      HeldAfterStop(NoJumps(before), l[|l| - 1], c);
    } else if Held(t, c) {
      HeldEndsInStop(t, c);
    }
  }
}
