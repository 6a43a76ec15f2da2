/**
  The presentation of one death on a client (src/bridge/native_death.cpp): the queued cinematic must pause the game,
  resume it, and have its restart message intercepted, with no other request seen in between.
*/
module DeathClient {
  const PAUSE_TYPE: nat := 0x0600c4ae
  const PAUSE_CALLER: nat := 0x6e1fd0
  const RESUME_CALLER: nat := 0x6e1f46

  datatype Event =
    | Present(occurrence: nat, admitted: bool, cinematic: nat)
    | Pause(pausing: bool, kind: nat, caller: nat, counter: int, flags: int, selected: nat)
    | Restart(receiverMatches: bool, actorDead: bool, selected: nat)
    | ResetDeath

  /** The cycle of the presented death; occurrence zero means that none is presented. */
  datatype Cycle = Cycle(
    occurrence: nat, cinematic: nat, restart: bool, paused: bool, resumed: bool, failed: bool)

  const IDLE := Cycle(0, 0, false, false, false, false)

  class ClientDeath {
    var occurrence: nat
    var cinematic: nat
    var restart: bool
    var paused: bool
    var resumed: bool
    var failed: bool

    ghost function Contents(): Cycle
      reads this
    {
      Cycle(occurrence, cinematic, restart, paused, resumed, failed)
    }

    constructor ()
      ensures Contents() == IDLE
    {
      occurrence, cinematic, restart, paused, resumed, failed := 0, 0, false, false, false, false;
    }

    /** Queues the cinematic of one death, when no other is presented; what else must hold is in `admitted`. */
    method PresentDeath(o: nat, admitted: bool, played: nat) returns (ok: bool)
      modifies this
      ensures ok <==> Starts(old(Contents()), Present(o, admitted, played))
      ensures ok ==> Contents() == Cycle(o, played, false, false, false, false)
      ensures !ok ==> Contents() == old(Contents()).(cinematic :=
                if o != 0 && admitted && old(occurrence) == 0 then 0 else old(cinematic))
    {
      if o == 0 || !admitted || occurrence != 0 {
        return false;
      }
      cinematic := played;
      if cinematic == 0 {
        return false;
      }
      occurrence := o;
      restart, paused, resumed, failed := false, false, false, false;
      return true;
    }

    method ObservePause(pausing: bool, kind: nat, caller: nat, counter: int, flags: int, selected: nat)
      modifies this
      ensures occurrence == old(occurrence) && cinematic == old(cinematic) && restart == old(restart)
      ensures var seen := occurrence != 0 && kind == 0x0600c4ae;
              && failed == (old(failed) || (seen && selected != cinematic))
              && paused == (old(paused)
                            || (seen && !failed && pausing && caller == 0x6e1fd0 && counter == 1 && flags == 3))
              && resumed == (old(resumed) || (seen && !failed && !pausing && caller == 0x6e1f46 && counter == 0
                                              && flags == 0 && old(paused)))
    {
      if occurrence == 0 || kind != PAUSE_TYPE {
        return;
      }
      if selected != cinematic {
        failed := true;
      }
      if !failed && pausing && caller == PAUSE_CALLER && counter == 1 && flags == 3 {
        paused := true;
      }
      if !failed && !pausing && caller == RESUME_CALLER && counter == 0 && flags == 0 && paused {
        resumed := true;
      }
    }

    /** The restart message never reaches the original on a client. */
    method InterceptRestart(receiverMatches: bool, actorDead: bool, selected: nat) returns (original: bool)
      modifies this
      ensures !original
      ensures Contents() == old(Contents()).(restart := old(restart) ||
                (occurrence != 0 && cinematic != 0 && receiverMatches && actorDead && paused && !failed
                 && (selected == cinematic || resumed)))
    {
      if occurrence != 0 && cinematic != 0 && receiverMatches && actorDead && paused && !failed &&
         (selected == cinematic || resumed) {
        restart := true;
      }
      return false;
    }

    method Confirmed(o: nat, quiet: bool) returns (ok: bool)
      ensures ok <==> quiet && Confirms(Contents(), o)
    {
      ok := restart && resumed && !failed && o == occurrence && quiet;
    }

    method Reset()
      modifies this
      ensures Contents() == IDLE
    {
      occurrence, cinematic, restart, paused, resumed, failed := 0, 0, false, false, false, false;
    }

    /** One event, as the state machine below says. */
    method Handle(e: Event)
      modifies this
      ensures Contents() == Step(old(Contents()), e)
    {
      match e
      case Present(o, admitted, played) =>
        var ok := PresentDeath(o, admitted, played);
      case Pause(pausing, kind, caller, counter, flags, selected) =>
        ObservePause(pausing, kind, caller, counter, flags, selected);
      case Restart(receiverMatches, actorDead, selected) =>
        var original := InterceptRestart(receiverMatches, actorDead, selected);
      case ResetDeath => Reset();
    }
  }

  // ---- The state machine ----

  predicate Starts(c: Cycle, e: Event)
    requires e.Present?
  {
    e.occurrence != 0 && e.admitted && c.occurrence == 0 && e.cinematic != 0
  }

  /** A pause or resume of the game seen while another request than ours is selected. */
  predicate Stray(cinematic: nat, e: Event) {
    e.Pause? && e.kind == PAUSE_TYPE && e.selected != cinematic
  }

  predicate Pauses(e: Event) {
    e.Pause? && e.kind == PAUSE_TYPE && e.pausing && e.caller == PAUSE_CALLER && e.counter == 1 && e.flags == 3
  }

  predicate Resumes(e: Event) {
    e.Pause? && e.kind == PAUSE_TYPE && !e.pausing && e.caller == RESUME_CALLER && e.counter == 0 && e.flags == 0
  }

  function Step(c: Cycle, e: Event): Cycle {
    match e
    case Present(o, admitted, played) =>
      if Starts(c, e) then Cycle(o, played, false, false, false, false)
      else if o != 0 && admitted && c.occurrence == 0 then c.(cinematic := 0)
      else c
    case Pause(_, _, _, _, _, _) =>
      if c.occurrence == 0 then c
      else
        var failed := c.failed || Stray(c.cinematic, e);
        c.(failed := failed, paused := c.paused || (!failed && Pauses(e)),
           resumed := c.resumed || (!failed && Resumes(e) && c.paused))
    case Restart(receiverMatches, actorDead, selected) =>
      c.(restart := c.restart ||
           (c.occurrence != 0 && c.cinematic != 0 && receiverMatches && actorDead && c.paused && !c.failed
            && (selected == c.cinematic || c.resumed)))
    case ResetDeath => IDLE
  }

  predicate Confirms(c: Cycle, o: nat) {
    c.restart && c.resumed && !c.failed && o == c.occurrence
  }

  function Run(es: seq<Event>): Cycle {
    if es == [] then IDLE else Step(Run(es[..|es| - 1]), es[|es| - 1])
  }

  // ---- What a confirmation means ----

  /** The presentation at place k is the one under way at the end: nothing reset it since. */
  predicate PresentedAt(es: seq<Event>, k: nat, o: nat) {
    && k < |es| && es[k].Present? && es[k].occurrence == o && Starts(Run(es[..k]), es[k])
    && forall i :: k < i < |es| ==> !es[i].ResetDeath?
  }

  predicate NoStray(es: seq<Event>, from: nat, to: nat, cinematic: nat) {
    forall i :: from < i < to && i < |es| ==> !Stray(cinematic, es[i])
  }

  predicate PausedAt(es: seq<Event>, k: nat, cinematic: nat, i: nat) {
    k < i < |es| && Pauses(es[i]) && NoStray(es, k, i + 1, cinematic)
  }

  ghost predicate ResumedAt(es: seq<Event>, k: nat, cinematic: nat, j: nat) {
    && k < j < |es| && Resumes(es[j]) && NoStray(es, k, j + 1, cinematic)
    && exists i: nat :: i < j && PausedAt(es, k, cinematic, i)
  }

  /** A restart message of our receiver for a dead actor, after the pause, of our request or after the resume. */
  ghost predicate RestartedAt(es: seq<Event>, k: nat, cinematic: nat, m: nat) {
    && k < m < |es| && es[m].Restart? && es[m].receiverMatches && es[m].actorDead
    && NoStray(es, k, m, cinematic)
    && (exists i: nat :: i < m && PausedAt(es, k, cinematic, i))
    && (es[m].selected == cinematic || exists j: nat :: j < m && ResumedAt(es, k, cinematic, j))
  }

  /** The whole state after a presentation, read off the events since. */
  ghost predicate Tells(c: Cycle, es: seq<Event>, k: nat)
    requires k < |es| && es[k].Present?
  {
    && c.occurrence == es[k].occurrence && c.cinematic == es[k].cinematic
    && (c.failed <==> !NoStray(es, k, |es|, c.cinematic))
    && (c.paused <==> exists i: nat :: PausedAt(es, k, c.cinematic, i))
    && (c.resumed <==> exists j: nat :: ResumedAt(es, k, c.cinematic, j))
    && (c.restart <==> exists m: nat :: RestartedAt(es, k, c.cinematic, m))
  }

  lemma PrefixFacts(es: seq<Event>, n: nat, k: nat, cinematic: nat, i: nat)
    requires n + 1 == |es| && i < n
    ensures PausedAt(es[..n], k, cinematic, i) <==> PausedAt(es, k, cinematic, i)
  {
    if PausedAt(es[..n], k, cinematic, i) {
      forall x | k < x < i + 1 ensures !Stray(cinematic, es[x]) {
        assert es[x] == es[..n][x];
      }
    }
    if PausedAt(es, k, cinematic, i) {
      forall x | k < x < i + 1 ensures !Stray(cinematic, es[..n][x]) {
        assert es[x] == es[..n][x];
      }
    }
  }

  lemma PrefixResumed(es: seq<Event>, n: nat, k: nat, cinematic: nat, j: nat)
    requires n + 1 == |es| && j < n
    ensures ResumedAt(es[..n], k, cinematic, j) <==> ResumedAt(es, k, cinematic, j)
  {
    hide PausedAt;
    assert es[..n][j] == es[j];
    if ResumedAt(es[..n], k, cinematic, j) {
      forall x | k < x < j + 1 ensures !Stray(cinematic, es[x]) {
        assert es[x] == es[..n][x];
      }
      var i: nat :| i < j && PausedAt(es[..n], k, cinematic, i);
      PrefixFacts(es, n, k, cinematic, i);
    }
    if ResumedAt(es, k, cinematic, j) {
      forall x | k < x < j + 1 ensures !Stray(cinematic, es[..n][x]) {
        assert es[x] == es[..n][x];
      }
      var i: nat :| i < j && PausedAt(es, k, cinematic, i);
      PrefixFacts(es, n, k, cinematic, i);
    }
  }

  lemma PrefixRestarted(es: seq<Event>, n: nat, k: nat, cinematic: nat, m: nat)
    requires n + 1 == |es| && m < n
    ensures RestartedAt(es[..n], k, cinematic, m) <==> RestartedAt(es, k, cinematic, m)
  {
    hide PausedAt, ResumedAt, NoStray;
    assert es[..n][m] == es[m];
    PrefixNoStray(es, n, k, m, cinematic);
    forall i: nat | i < m
      ensures PausedAt(es[..n], k, cinematic, i) <==> PausedAt(es, k, cinematic, i)
      ensures ResumedAt(es[..n], k, cinematic, i) <==> ResumedAt(es, k, cinematic, i)
    {
      PrefixFacts(es, n, k, cinematic, i);
      PrefixResumed(es, n, k, cinematic, i);
    }
  }

  lemma PrefixNoStray(es: seq<Event>, n: nat, k: nat, to: nat, cinematic: nat)
    requires n + 1 == |es| && to <= n
    ensures NoStray(es[..n], k, to, cinematic) <==> NoStray(es, k, to, cinematic)
  {
    assert forall x :: 0 <= x < n ==> es[x] == es[..n][x];
  }

  lemma StrayStep(es: seq<Event>, k: nat, cinematic: nat)
    requires k + 1 < |es|
    ensures var n := |es| - 1;
            NoStray(es, k, |es|, cinematic) <==> NoStray(es[..n], k, n, cinematic) && !Stray(cinematic, es[n])
  {
    PrefixNoStray(es, |es| - 1, k, |es| - 1, cinematic);
  }

  lemma PausedStep(es: seq<Event>, k: nat, cinematic: nat)
    requires k + 1 < |es|
    ensures var n := |es| - 1;
            (exists i: nat :: PausedAt(es, k, cinematic, i))
            <==> (exists i: nat :: PausedAt(es[..n], k, cinematic, i))
                 || (Pauses(es[n]) && NoStray(es, k, |es|, cinematic))
  {
    var n := |es| - 1;
    hide Pauses, NoStray;
    if i: nat :| PausedAt(es, k, cinematic, i) && i < n {
      PrefixFacts(es, n, k, cinematic, i);
    }
    if i: nat :| PausedAt(es[..n], k, cinematic, i) {
      PrefixFacts(es, n, k, cinematic, i);
    }
    if Pauses(es[n]) && NoStray(es, k, |es|, cinematic) {
      assert PausedAt(es, k, cinematic, n);
    }
  }

  lemma ResumedStep(es: seq<Event>, k: nat, cinematic: nat)
    requires k + 1 < |es|
    ensures var n := |es| - 1;
            (exists j: nat :: ResumedAt(es, k, cinematic, j))
            <==> (exists j: nat :: ResumedAt(es[..n], k, cinematic, j))
                 || (Resumes(es[n]) && NoStray(es, k, |es|, cinematic)
                     && exists i: nat :: PausedAt(es[..n], k, cinematic, i))
  {
    var n := |es| - 1;
    hide PausedAt, Resumes, NoStray;
    if j: nat :| ResumedAt(es, k, cinematic, j) {
      if j < n {
        PrefixResumed(es, n, k, cinematic, j);
      } else {
        var i: nat :| i < j && PausedAt(es, k, cinematic, i);
        PrefixFacts(es, n, k, cinematic, i);
      }
    }
    if j: nat :| ResumedAt(es[..n], k, cinematic, j) {
      PrefixResumed(es, n, k, cinematic, j);
    }
    if Resumes(es[n]) && NoStray(es, k, |es|, cinematic) {
      if i: nat :| PausedAt(es[..n], k, cinematic, i) {
        Within(es[..n], k, cinematic, i);
        PrefixFacts(es, n, k, cinematic, i);
        assert ResumedAt(es, k, cinematic, n);
      }
    }
  }

  lemma Within(es: seq<Event>, k: nat, cinematic: nat, i: nat)
    requires PausedAt(es, k, cinematic, i)
    ensures i < |es|
  {}

  lemma RestartedStep(es: seq<Event>, k: nat, cinematic: nat)
    requires k + 1 < |es|
    ensures var n := |es| - 1;
            (exists m: nat :: RestartedAt(es, k, cinematic, m))
            <==> (exists m: nat :: RestartedAt(es[..n], k, cinematic, m))
                 || (&& es[n].Restart? && es[n].receiverMatches && es[n].actorDead
                     && NoStray(es[..n], k, n, cinematic)
                     && (exists i: nat :: PausedAt(es[..n], k, cinematic, i))
                     && (es[n].selected == cinematic || exists j: nat :: ResumedAt(es[..n], k, cinematic, j)))
  {
    var n := |es| - 1;
    LastRestart(es, k, cinematic);
    hide PausedAt, ResumedAt, NoStray;
    if m: nat :| RestartedAt(es, k, cinematic, m) && m < n {
      PrefixRestarted(es, n, k, cinematic, m);
    }
    if m: nat :| RestartedAt(es[..n], k, cinematic, m) {
      PrefixRestarted(es, n, k, cinematic, m);
    }
  }

  lemma LastRestart(es: seq<Event>, k: nat, cinematic: nat)
    requires k + 1 < |es|
    ensures var n := |es| - 1;
            RestartedAt(es, k, cinematic, n) <==>
              && es[n].Restart? && es[n].receiverMatches && es[n].actorDead
              && NoStray(es[..n], k, n, cinematic)
              && (exists i: nat :: PausedAt(es[..n], k, cinematic, i))
              && (es[n].selected == cinematic || exists j: nat :: ResumedAt(es[..n], k, cinematic, j))
  {
    var n := |es| - 1;
    PrefixNoStray(es, n, k, n, cinematic);
    hide NoStray;
    forall i: nat | i < n
      ensures PausedAt(es[..n], k, cinematic, i) <==> PausedAt(es, k, cinematic, i)
      ensures ResumedAt(es[..n], k, cinematic, i) <==> ResumedAt(es, k, cinematic, i)
    {
      PrefixFacts(es, n, k, cinematic, i);
      PrefixResumed(es, n, k, cinematic, i);
    }
    assert forall i: nat :: PausedAt(es[..n], k, cinematic, i) ==> i < n;
    assert forall i: nat :: ResumedAt(es[..n], k, cinematic, i) ==> i < n;
  }

  /** Since a presentation, every flag says exactly which events have been seen. */
  lemma {:induction false} CycleTells(es: seq<Event>, k: nat, o: nat)
    requires PresentedAt(es, k, o)
    ensures Tells(Run(es), es, k)
    decreases |es|
  {
    var n := |es| - 1;
    if k == n {
      JustPresented(es, o);
    } else {
      PresentedEarlier(es, k, o);
      CycleTells(es[..n], k, o);
      TellsStep(Run(es[..n]), es, k);
    }
  }

  lemma PresentedEarlier(es: seq<Event>, k: nat, o: nat)
    requires PresentedAt(es, k, o) && k + 1 < |es|
    ensures PresentedAt(es[..|es| - 1], k, o) && !es[|es| - 1].ResetDeath? && o != 0
    ensures es[..|es| - 1][k] == es[k] && es[k].cinematic != 0
  {
    hide Run;
    var before := es[..|es| - 1];
    assert before[..k] == es[..k];
    forall i | k < i < |before| ensures !before[i].ResetDeath? {
      assert es[i] == before[i];
    }
  }

  lemma JustPresented(es: seq<Event>, o: nat)
    requires es != [] && PresentedAt(es, |es| - 1, o)
    ensures Tells(Run(es), es, |es| - 1)
  {}

  lemma TellsStep(c: Cycle, es: seq<Event>, k: nat)
    requires k + 1 < |es| && es[..|es| - 1][k] == es[k] && es[k].Present? && es[k].occurrence != 0
    requires es[k].cinematic != 0
    requires Tells(c, es[..|es| - 1], k) && !es[|es| - 1].ResetDeath?
    ensures Tells(Step(c, es[|es| - 1]), es, k)
  {
    StrayStep(es, k, c.cinematic);
    PausedStep(es, k, c.cinematic);
    ResumedStep(es, k, c.cinematic);
    RestartedStep(es, k, c.cinematic);
    hide PausedAt, ResumedAt, RestartedAt, NoStray;
  }

  /**
    A client confirms a presented death exactly when, since the presentation, a pause of the game matched, then a
    resume, then or between them the restart message, and no other request was ever seen.
  */
  lemma ConfirmedExactly(es: seq<Event>, k: nat, o: nat)
    requires PresentedAt(es, k, o)
    ensures var cinematic := es[k].cinematic;
            Confirms(Run(es), o) <==>
              && NoStray(es, k, |es|, cinematic)
              && (exists j: nat :: ResumedAt(es, k, cinematic, j)) && exists m: nat :: RestartedAt(es, k, cinematic, m)
  {
    CycleTells(es, k, o);
    hide PausedAt, ResumedAt, RestartedAt, NoStray, Run;
  }

  /** Nothing is ever confirmed that was not presented. */
  lemma {:induction false} ConfirmedWasPresented(es: seq<Event>)
    requires Run(es).occurrence != 0
    ensures exists k: nat :: PresentedAt(es, k, Run(es).occurrence)
  {
    var n := |es| - 1;
    var before := es[..n];
    if es[n].Present? && Starts(Run(before), es[n]) {
      assert PresentedAt(es, n, Run(es).occurrence);
    } else {
      ConfirmedWasPresented(before);
      var k: nat :| PresentedAt(before, k, Run(before).occurrence);
      assert before[..k] == es[..k] && before[k] == es[k];
      forall i | k < i < |es| ensures !es[i].ResetDeath? {
        assert i < n ==> es[i] == before[i];
      }
      assert PresentedAt(es, k, Run(es).occurrence);
    }
  }

  /** One presentation that is confirmed: the pause and the resume of its own request, and the restart message. */
  lemma ConfirmingLife(o: nat, cinematic: nat)
    requires o != 0 && cinematic != 0
    ensures Confirms(Run([Present(o, true, cinematic), Pause(true, 0x0600c4ae, 0x6e1fd0, 1, 3, cinematic),
                          Pause(false, 0x0600c4ae, 0x6e1f46, 0, 0, cinematic), Restart(true, true, 0)]), o)
  {
    var a, b := Present(o, true, cinematic), Pause(true, 0x0600c4ae, 0x6e1fd0, 1, 3, cinematic);
    var c, d := Pause(false, 0x0600c4ae, 0x6e1f46, 0, 0, cinematic), Restart(true, true, 0);
    assert [a][..0] == [] && [a, b][..1] == [a] && [a, b, c][..2] == [a, b] && [a, b, c, d][..3] == [a, b, c];
    assert Run([a]) == Cycle(o, cinematic, false, false, false, false);
    assert Run([a, b]) == Cycle(o, cinematic, false, true, false, false);
    assert Run([a, b, c]) == Cycle(o, cinematic, false, true, true, false);
  }

  /** A presentation whose cinematic is not played forgets the request of the one before. */
  lemma UnplayedForgets(c: Cycle, o: nat)
    requires o != 0 && c.occurrence == 0
    ensures Step(c, Present(o, true, 0)) == c.(cinematic := 0)
  {}
}
