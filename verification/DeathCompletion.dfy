/**
  That deaths do get pending and do complete, for both players: the converse of the bounds of DeathAuthority. A tree of
  calls spares a slot when it neither resets nor completes a death in that slot.
*/
module DeathCompletion {
  import opened DeathAuthority

  predicate Spares(c: Call, slot: nat)
    decreases c, 0
  {
    match c
    case Begin(_, _, _, _, _, _, _, body) => SparesAll(body, slot)
    case Tick(_, body) => SparesAll(body, slot)
    case Scope(body) => SparesAll(body, slot)
    case Complete(r, _, _, body) => r.slot != slot && SparesAll(body, slot)
    case Reset => false
  }

  predicate SparesAll(cs: seq<Call>, slot: nat)
    decreases cs, 1
  {
    cs == [] || (Spares(cs[0], slot) && SparesAll(cs[1..], slot))
  }

  /** The same death is pending in a slot. */
  predicate SamePending(s: State, t: State, slot: nat)
    requires slot < |s.pending|
  {
    |t.pending| == |s.pending| && t.pending[slot] == s.pending[slot]
  }

  lemma IssueSpares(s: State, c: Call, slot: nat)
    requires c.Begin? && slot < |s.pending| && s.pending[slot].occurrence != 0 && Taken(s, c)
    ensures SlotOf(s, c) != slot && SamePending(s, Issue(s, c), slot)
  {}

  lemma ClearSpares(s: State, other: nat, slot: nat)
    requires slot < |s.pending| && other != slot
    ensures SamePending(s, Clear(s, other), slot)
  {}

  lemma {:induction false} SparedCall(c: Call, s: State, scope: bool, slot: nat)
    requires slot < |s.pending| && s.pending[slot].occurrence != 0 && Spares(c, slot)
    ensures SamePending(s, Eval(c, s, scope), slot)
    decreases c, 0
  {
    hide EvalAll, Clear, Issue, Taken;
    match c
    case Begin(_, _, _, _, _, presented, good, body) =>
      if !Taken(s, c) || !presented {
        SparedCalls(body, s, scope, slot);
      } else {
        IssueSpares(s, c, slot);
        SparedCalls(body, Issue(s, c), scope, slot);
        ClearSpares(EvalAll(body, Issue(s, c), scope), SlotOf(s, c), slot);
      }
    case Tick(admitted, body) => SparedCalls(body, s.(ticking := true), true, slot);
    case Scope(body) => SparedCalls(body, s, true, slot);
    case Complete(r, ready, applied, body) =>
      SparedCalls(body, s, scope || r.slot == 2, slot);
      ClearSpares(EvalAll(body, s, scope || r.slot == 2), r.slot, slot);
  }

  /** A pending death survives every call that spares its slot. */
  lemma {:induction false} SparedCalls(cs: seq<Call>, s: State, scope: bool, slot: nat)
    requires slot < |s.pending| && s.pending[slot].occurrence != 0 && SparesAll(cs, slot)
    ensures SamePending(s, EvalAll(cs, s, scope), slot)
    decreases cs, 1
  {
    hide Eval;
    if cs != [] {
      SparedCall(cs[0], s, scope, slot);
      SparedCalls(cs[1..], Eval(cs[0], s, scope), scope, slot);
    }
  }

  /** The death that a completion names is pending, and for the second player no stage scope is open. */
  predicate Due(s: State, r: Request, scope: bool) {
    && |s.pending| == 3 && r.occurrence != 0
    && ((r.slot == 1 && s.pending[1] == r) || (r.slot == 2 && s.pending[2] == r && !scope))
  }

  /** Completing a death that is due, ready and revived counts it once and empties its slot, for either player. */
  lemma CompletesDue(s: State, r: Request, body: seq<Call>, scope: bool)
    requires Inv(s) && s.counter + BeginsAll(body) < WIDTH && Due(s, r, scope) && SparesAll(body, r.slot)
    ensures var t := Eval(Complete(r, true, true, body), s, scope);
            && |t.pending| == 3 && t.pending[r.slot].occurrence == 0
            && multiset(s.completed)[r.occurrence] == 0 && multiset(t.completed)[r.occurrence] == 1
            && t.completed != [] && t.completed[|t.completed| - 1] == r.occurrence
  {
    assert SlotOk(s, r.slot);
    SparedCalls(body, s, scope || r.slot == 2, r.slot);
    EvalAllKeeps(body, s, scope || r.slot == 2);
    var after := EvalAll(body, s, scope || r.slot == 2);
    assert SlotOk(after, r.slot);
    hide EvalAll;
  }

  /** A completion of anything else, and any completion that is not ready, changes nothing and runs nothing. */
  lemma CompletesNothingElse(s: State, r: Request, ready: bool, applied: bool, body: seq<Call>, scope: bool)
    requires |s.pending| == 3 && !(ready && Due(s, r, scope))
    ensures Eval(Complete(r, ready, applied, body), s, scope) == s
  {}

  /** A restart that does not revive leaves the death pending. */
  lemma FailedRestartKeeps(s: State, r: Request, body: seq<Call>, scope: bool)
    requires Due(s, r, scope) && SparesAll(body, r.slot)
    ensures SamePending(s, Eval(Complete(r, true, false, body), s, scope), r.slot)
  {
    SparedCalls(body, s, scope || r.slot == 2, r.slot);
    hide EvalAll;
  }

  /**
    A begin that is admitted, presented and left waiting makes its death pending in the slot of its player, under the
    next number; one that is not left waiting leaves the slot empty.
  */
  lemma BeginsPending(c: Call, s: State, scope: bool)
    requires Inv(s) && c.Begin? && c.admitted && c.presented && s.counter + Begins(c) < WIDTH
    requires var slot := if s.ticking && c.secondary then 2 else 1;
             s.pending[slot].occurrence == 0 && SparesAll(c.body, slot)
    ensures var t, slot := Eval(c, s, scope), if s.ticking && c.secondary then 2 else 1;
            && |t.pending| == 3
            && (c.good ==> t.pending[slot] == Request(c.epoch, s.counter + 1, c.nativeId, c.reason, slot))
            && (!c.good ==> t.pending[slot].occurrence == 0 && (slot == 2 ==> t.blocked))
  {
    var slot := if s.ticking && c.secondary then 2 else 1;
    SparedCalls(c.body, Issue(s, c), scope, slot);
    hide EvalAll;
  }

  /** A ticked begin of the second player that is not admitted, or while a death is pending, blocks that handler. */
  lemma SecondBeginRefused(c: Call, s: State, scope: bool)
    requires |s.pending| == 3 && c.Begin? && c.secondary && s.ticking
    requires !c.admitted || s.pending[2].occurrence != 0
    ensures Eval(c, s, scope) == s.(blocked := true)
  {}

  lemma CallsOf(a: Call, b: Call, s: State, scope: bool)
    ensures EvalAll([a, b], s, scope) == Eval(b, Eval(a, s, scope), scope)
  {
    hide Eval;
    var t := Eval(a, s, scope);
    assert [a, b][1..] == [b] && [b][1..] == [];
    NothingRun(Eval(b, t, scope), scope);
    assert EvalAll([b], t, scope) == Eval(b, t, scope);
  }

  lemma TickedBegin(begin: Call)
    requires begin.Begin? && begin.secondary && begin.admitted && begin.presented && begin.good && begin.body == []
    ensures var t := Eval(Tick(true, [begin]), START, false);
            && Inv(t) && t.counter == 1 && t.completed == []
            && t.pending[2] == Request(begin.epoch, 1, begin.nativeId, begin.reason, 2)
  {
    var s := START.(ticking := true);
    StartInv();
    FlagsKeep(START, s);
    NothingRun(Issue(s, begin), true);
    var t := Eval(begin, s, true);
    assert t == Issue(s, begin);
    IssueKeeps(s, begin);
    NothingRun(t, true);
    assert [begin][1..] == [];
    assert EvalAll([begin], s, true) == t;
    FlagsKeep(t, t.(ticking := false));
    TickCase(Tick(true, [begin]), START, false);
  }

  /** A whole life of the second player: its death begins in a tick and is completed, once. */
  lemma SecondLife(epoch: nat, nativeId: nat, reason: nat)
    ensures var r := Request(epoch, 1, nativeId, reason, 2);
            var begin := Begin(true, epoch, nativeId, reason, true, true, true, []);
            var calls := [Tick(true, [begin]), Complete(r, true, true, [])];
            EvalAll(calls, START, false).completed == [1] && EvalAll(calls, START, false).pending == START.pending
  {
    var r := Request(epoch, 1, nativeId, reason, 2);
    var begin := Begin(true, epoch, nativeId, reason, true, true, true, []);
    var s := Eval(Tick(true, [begin]), START, false);
    TickedBegin(begin);
    CallsOf(Tick(true, [begin]), Complete(r, true, true, []), START, false);
    NothingRun(s, true);
    assert Eval(Complete(r, true, true, []), s, false) == Clear(s, 2).(completed := [1]);
    OthersEmpty(begin);
  }

  lemma OthersEmpty(begin: Call)
    requires begin.Begin? && begin.secondary && begin.admitted && begin.presented && begin.good && begin.body == []
    ensures var t := Eval(Tick(true, [begin]), START, false);
            t.pending == START.pending[2 := Request(begin.epoch, 1, begin.nativeId, begin.reason, 2)]
  {
    var s := START.(ticking := true);
    NothingRun(Issue(s, begin), true);
    var t := Eval(begin, s, true);
    NothingRun(t, true);
    assert [begin][1..] == [];
    assert EvalAll([begin], s, true) == t;
    TickCase(Tick(true, [begin]), START, false);
  }
}
