/**
  Deaths on the authority (src/bridge/native_death.cpp): a death that the original begins becomes pending under a new
  occurrence number, and completing it runs the original restart. Both run original code, from which the same hooks
  can be entered again; that code is any tree of further calls. What belongs to the second player runs in that
  player's stage scope, and a guarded call (src/bridge/native_award_context.cpp) is refused while one is open.
*/
module DeathAuthority {
  datatype Request = Request(epoch: nat, occurrence: nat, nativeId: nat, reason: nat, slot: nat)

  const NONE := Request(0, 0, 0, 0, 0)
  const WIDTH: nat := 0x1_0000_0000_0000_0000

  /**
    The flags are what the original and the other guards answer: whether a begin is admitted and its reason is one
    that is presented, whether it then left its handler waiting; whether a death is ready to complete and the restart
    did revive its actor. Scope is any other code that runs in the second player's stage scope.
  */
  datatype Call =
    | Begin(secondary: bool, epoch: nat, nativeId: nat, reason: nat, admitted: bool, presented: bool, good: bool,
            body: seq<Call>)
    | Tick(admitted: bool, body: seq<Call>)
    | Scope(body: seq<Call>)
    | Complete(request: Request, ready: bool, applied: bool, body: seq<Call>)
    | Reset

  /** The globals; then what happened: the slot of each issued occurrence, of each cleared death, the completions. */
  datatype State = State(
    pending: seq<Request>, counter: nat, ticking: bool, blocked: bool,
    issued: seq<nat>, cleared: seq<nat>, completed: seq<nat>)

  const START := State([NONE, NONE, NONE], 0, false, false, [], [], [])

  predicate Slot(slot: nat) {
    slot == 1 || slot == 2
  }

  function Pending(s: State, slot: nat): Request {
    if slot < |s.pending| then s.pending[slot] else NONE
  }

  /** The slot is empty afterwards; a death that was pending in it counts as cleared. */
  function Clear(s: State, slot: nat): State {
    if Pending(s, slot).occurrence == 0 then s
    else s.(pending := s.pending[slot := NONE], cleared := s.cleared + [slot])
  }

  /** The second player's own handler takes its slot only while that player's handler is ticked. */
  function SlotOf(s: State, c: Call): nat
    requires c.Begin?
  {
    if s.ticking && c.secondary then 2 else 1
  }

  function Issue(s: State, c: Call): State
    requires c.Begin?
  {
    var slot, occurrence := SlotOf(s, c), (s.counter + 1) % WIDTH;
    var r := Request(c.epoch, occurrence, c.nativeId, c.reason, slot);
    s.(counter := occurrence, issued := s.issued + [slot],
       pending := if slot < |s.pending| then s.pending[slot := r] else s.pending)
  }

  predicate Taken(s: State, c: Call)
    requires c.Begin?
  {
    c.admitted && Pending(s, SlotOf(s, c)).occurrence == 0
  }

  /** A completion that gets as far as the restart. */
  predicate Completable(s: State, r: Request, ready: bool, scope: bool) {
    ready && Slot(r.slot) && r.occurrence != 0 && Pending(s, r.slot) == r && !(r.slot == 2 && scope)
  }

  /** A failed begin of the second player's also blocks that player's handler until the next reset. */
  function Failed(s: State, slot: nat): State {
    var t := Clear(s, slot);
    if slot == 2 then t.(blocked := true) else t
  }

  function Wiped(s: State): State {
    Clear(Clear(s, 1), 2).(ticking := false, blocked := false)
  }

  /** Running calls, with or without a second player's stage scope around them. */
  function Eval(c: Call, s: State, scope: bool): State
    decreases c, 0
  {
    match c
    case Begin(_, _, _, _, _, presented, good, body) =>
      if !Taken(s, c) then (if SlotOf(s, c) == 2 then s.(blocked := true) else EvalAll(body, s, scope))
      else if !presented then EvalAll(body, s, scope)
      else
        var after := EvalAll(body, Issue(s, c), scope);
        if good then after else Failed(after, SlotOf(s, c))
    case Tick(admitted, body) =>
      if scope || s.blocked || !admitted then s
      else EvalAll(body, s.(ticking := true), true).(ticking := false)
    case Scope(body) => EvalAll(body, s, true)
    case Complete(r, ready, applied, body) =>
      if !Completable(s, r, ready, scope) then s
      else
        var after := EvalAll(body, s, scope || r.slot == 2);
        if applied then Clear(after, r.slot).(completed := after.completed + [r.occurrence]) else after
    case Reset => Wiped(s)
  }

  function EvalAll(cs: seq<Call>, s: State, scope: bool): State
    decreases cs, 1
  {
    if cs == [] then s else EvalAll(cs[1..], Eval(cs[0], s, scope), scope)
  }

  // ---- The code ----

  class NativeDeath {
    const pending: array<Request>
    var occurrenceCounter: nat
    var secondaryTick: bool
    var secondaryBlocked: bool
    var contextActive: bool
    ghost var issued: seq<nat>
    ghost var cleared: seq<nat>
    ghost var completed: seq<nat>

    ghost predicate Valid()
      reads this
    {
      pending.Length == 3
    }

    ghost function Contents(): State
      requires Valid()
      reads this, pending
    {
      State(pending[..], occurrenceCounter, secondaryTick, secondaryBlocked, issued, cleared, completed)
    }

    constructor ()
      ensures Valid() && fresh(pending) && Contents() == START && !contextActive
    {
      pending := new Request[3](_ => NONE);
      occurrenceCounter, secondaryTick, secondaryBlocked, contextActive := 0, false, false, false;
      issued, cleared, completed := [], [], [];
      new;
      assert pending[..] == START.pending;
    }

    method ClearSlot(slot: nat)
      requires Valid() && slot < 3
      modifies this`cleared, pending
      ensures Valid() && Contents() == Clear(old(Contents()), slot)
      ensures pending[slot].occurrence == 0
    {
      if pending[slot].occurrence != 0 {
        cleared := cleared + [slot];
        pending[slot] := NONE;
      }
    }

    method Run(c: Call)
      requires Valid()
      modifies this, pending
      ensures Valid() && contextActive == old(contextActive)
      ensures Contents() == Eval(c, old(Contents()), old(contextActive))
      decreases c, 0
    {
      hide EvalAll, Clear, Eval;
      match c
      case Begin(_, _, _, _, _, _, _, _) => BeginDeath(c);
      case Tick(admitted, body) =>
        TickCase(c, Contents(), contextActive);
        if !contextActive && !secondaryBlocked && admitted {
          contextActive := true;
          secondaryTick := true;
          RunAll(body);
          secondaryTick := false;
          contextActive := false;
        }
      case Scope(body) =>
        ScopeCase(c, Contents(), contextActive);
        var outer := !contextActive;
        contextActive := true;
        RunAll(body);
        if outer {
          contextActive := false;
        }
      case Complete(r, ready, applied, body) =>
        var done := CompleteDeath(r, ready, applied, body);
      case Reset =>
        ResetCase(Contents(), contextActive);
        ClearSlot(1);
        ClearSlot(2);
        secondaryTick, secondaryBlocked := false, false;
    }

    method BeginDeath(c: Call)
      requires Valid() && c.Begin?
      modifies this, pending
      ensures Valid() && contextActive == old(contextActive)
      ensures Contents() == Eval(c, old(Contents()), old(contextActive))
      decreases c.body, 2
    {
      hide EvalAll, Clear;
      var slot := if secondaryTick && c.secondary then 2 else 1;
      if !c.admitted || pending[slot].occurrence != 0 {
        if slot == 2 {
          secondaryBlocked := true;
          return;
        }
        RunAll(c.body);
        return;
      }
      if !c.presented {
        RunAll(c.body);
        return;
      }
      occurrenceCounter := (occurrenceCounter + 1) % WIDTH;
      pending[slot] := Request(c.epoch, occurrenceCounter, c.nativeId, c.reason, slot);
      issued := issued + [slot];
      RunAll(c.body);
      if !c.good {
        ClearSlot(slot);
        if slot == 2 {
          secondaryBlocked := true;
        }
      }
    }

    /**
      True exactly when this call completes the death: it is ready, it is the one pending in its slot, no scope is open
      for the second player's, and the restart revived. Then its slot is empty and it counts last; a request that is not
      carried out changes nothing.
    */
    method CompleteDeath(r: Request, ready: bool, applied: bool, body: seq<Call>) returns (done: bool)
      requires Valid()
      modifies this, pending
      ensures Valid() && contextActive == old(contextActive)
      ensures Contents() == Eval(Complete(r, ready, applied, body), old(Contents()), old(contextActive))
      ensures var due := ready && r.occurrence != 0 && (r.slot == 1 || (r.slot == 2 && !contextActive))
                         && old(pending[..])[r.slot] == r;
              && done == (due && applied)
              && (done ==> pending[r.slot].occurrence == 0)
              && (done ==> completed != [] && completed[|completed| - 1] == r.occurrence)
              && (!due ==> Contents() == old(Contents()))
      decreases body, 2
    {
      hide EvalAll, Clear;
      if !ready || !Slot(r.slot) || r.occurrence == 0 || pending[r.slot] != r {
        return false;
      }
      if r.slot == 2 {
        if contextActive {
          return false;
        }
        contextActive := true;
        RunAll(body);
        contextActive := false;
      } else {
        RunAll(body);
      }
      if applied {
        ClearSlot(r.slot);
        completed := completed + [r.occurrence];
      }
      return applied;
    }

    method RunAll(cs: seq<Call>)
      requires Valid()
      modifies this, pending
      ensures Valid() && contextActive == old(contextActive)
      ensures Contents() == EvalAll(cs, old(Contents()), old(contextActive))
      decreases cs, 1
    {
      hide Eval;
      if cs != [] {
        Run(cs[0]);
        RunAll(cs[1..]);
      }
    }
  }

  lemma TickCase(c: Call, s: State, scope: bool)
    requires c.Tick?
    ensures Eval(c, s, scope) ==
              if scope || s.blocked || !c.admitted then s
              else EvalAll(c.body, s.(ticking := true), true).(ticking := false)
  {}

  lemma ScopeCase(c: Call, s: State, scope: bool)
    requires c.Scope?
    ensures Eval(c, s, scope) == EvalAll(c.body, s, true)
  {}

  lemma ResetCase(s: State, scope: bool)
    ensures Eval(Reset, s, scope) == Wiped(s)
  {}

  // ---- What every tree keeps ----

  /** How many begins a tree can issue. */
  function Begins(c: Call): nat
    decreases c, 0
  {
    match c
    case Begin(_, _, _, _, _, _, _, body) => 1 + BeginsAll(body)
    case Tick(_, body) => BeginsAll(body)
    case Scope(body) => BeginsAll(body)
    case Complete(_, _, _, body) => BeginsAll(body)
    case Reset => 0
  }

  function BeginsAll(cs: seq<Call>): nat
    decreases cs, 1
  {
    if cs == [] then 0 else Begins(cs[0]) + BeginsAll(cs[1..])
  }

  ghost predicate Once(m: multiset<nat>) {
    forall x :: m[x] <= 1
  }

  predicate Issued(s: State, occurrences: seq<nat>) {
    forall x :: x in occurrences ==> 1 <= x <= |s.issued|
  }

  /** A pending death has a number that was issued to its slot and is not completed; deaths of a slot are balanced. */
  predicate SlotOk(s: State, slot: nat)
    requires slot < |s.pending| && s.counter == |s.issued|
  {
    var r := s.pending[slot];
    && (r.occurrence != 0 ==>
          && r.occurrence <= s.counter && s.issued[r.occurrence - 1] == slot == r.slot
          && r.occurrence !in s.completed)
    && multiset(s.issued)[slot] == multiset(s.cleared)[slot] + if r.occurrence != 0 then 1 else 0
  }

  ghost predicate Inv(s: State) {
    && |s.pending| == 3 && s.counter == |s.issued| && Issued(s, s.completed)
    && forall slot :: 0 <= slot < 3 ==> SlotOk(s, slot)
  }

  /** The second player's completions are under way only in a scope, and no occurrence of that slot appears twice. */
  ghost predicate SecondOnce(s: State, scope: bool, open: seq<nat>) {
    && Issued(s, open) && (forall x :: x in open && s.issued[x - 1] == 2 ==> scope)
    && forall x: nat :: 1 <= x <= |s.issued| && s.issued[x - 1] == 2 ==>
         (multiset(s.completed) + multiset(open))[x] <= 1
  }

  /**
    A successful completion of an occurrence inside another successful completion of it; `open` are the occurrences
    whose completion is under way and will succeed.
  */
  predicate Reenters(c: Call, s: State, scope: bool, open: seq<nat>)
    decreases c, 0
  {
    match c
    case Begin(_, _, _, _, _, presented, _, body) =>
      if !Taken(s, c) then SlotOf(s, c) != 2 && ReentersAll(body, s, scope, open)
      else ReentersAll(body, if presented then Issue(s, c) else s, scope, open)
    case Tick(admitted, body) =>
      !scope && !s.blocked && admitted && ReentersAll(body, s.(ticking := true), true, open)
    case Scope(body) => ReentersAll(body, s, true, open)
    case Complete(r, ready, applied, body) =>
      && Completable(s, r, ready, scope)
      && if !applied then ReentersAll(body, s, scope || r.slot == 2, open)
         else r.occurrence in open || ReentersAll(body, s, scope || r.slot == 2, open + [r.occurrence])
    case Reset => false
  }

  predicate ReentersAll(cs: seq<Call>, s: State, scope: bool, open: seq<nat>)
    decreases cs, 1
  {
    cs != [] && (Reenters(cs[0], s, scope, open) || ReentersAll(cs[1..], Eval(cs[0], s, scope), scope, open))
  }

  /** From one state to a later one. */
  ghost predicate Later(s: State, t: State) {
    s.issued <= t.issued && multiset(s.completed) <= multiset(t.completed)
  }

  lemma IssueKeeps(s: State, c: Call)
    requires Inv(s) && c.Begin? && Taken(s, c) && s.counter + 1 < WIDTH
    ensures Inv(Issue(s, c)) && Later(s, Issue(s, c)) && Issue(s, c).counter == s.counter + 1
    ensures Issue(s, c).completed == s.completed
  {
    var t := Issue(s, c);
    forall slot | 0 <= slot < 3 ensures SlotOk(t, slot) {
      assert SlotOk(s, slot);
    }
  }

  lemma ClearKeeps(s: State, slot: nat)
    requires Inv(s)
    ensures Inv(Clear(s, slot)) && Pending(Clear(s, slot), slot).occurrence == 0
    ensures Clear(s, slot) == s.(pending := Clear(s, slot).pending, cleared := Clear(s, slot).cleared)
  {
    forall k | 0 <= k < 3 ensures SlotOk(Clear(s, slot), k) {
      assert SlotOk(s, k);
    }
  }

  lemma FlagsKeep(s: State, t: State)
    requires Inv(s) && t == s.(ticking := t.ticking, blocked := t.blocked)
    ensures Inv(t)
  {
    forall k | 0 <= k < 3 ensures SlotOk(t, k) {
      assert SlotOk(s, k);
    }
  }

  /** A pending death is not completed, so opening its completion doubles nothing unless one is under way. */
  lemma Opened(s: State, r: Request, open: seq<nat>)
    requires Inv(s) && Slot(r.slot) && r.occurrence != 0 && Pending(s, r.slot) == r
    ensures 1 <= r.occurrence <= |s.issued| && s.issued[r.occurrence - 1] == r.slot
    ensures Once(multiset(s.completed) + multiset(open + [r.occurrence]))
            <==> Once(multiset(s.completed) + multiset(open)) && r.occurrence !in open
  {
    assert SlotOk(s, r.slot);
    OnceMore(s.completed, open, r.occurrence);
  }

  lemma OnceMore(completed: seq<nat>, open: seq<nat>, x: nat)
    ensures var before := multiset(completed) + multiset(open);
            Once(multiset(completed) + multiset(open + [x])) <==> Once(before) && x !in completed && x !in open
  {
    var before := multiset(completed) + multiset(open);
    var after := multiset(completed) + multiset(open + [x]);
    assert forall y :: after[y] == before[y] + if y == x then 1 else 0;
    if Once(before) && x !in completed && x !in open {
      assert before[x] == 0;
    }
    if Once(after) {
      assert after[x] <= 1;
      forall y ensures before[y] <= 1 {
        assert after[y] <= 1;
      }
    }
  }

  /** Recording a completion once its slot is empty. */
  lemma Closed(s: State, r: Request, open: seq<nat>)
    requires Inv(s) && Slot(r.slot) && 1 <= r.occurrence <= |s.issued| && s.issued[r.occurrence - 1] == r.slot
    ensures var t := Clear(s, r.slot).(completed := s.completed + [r.occurrence]);
            && Inv(t) && Later(s, t) && t.issued == s.issued && t.counter == s.counter
            && multiset(t.completed) + multiset(open) == multiset(s.completed) + multiset(open + [r.occurrence])
  {
    ClearKeeps(s, r.slot);
    var u := Clear(s, r.slot);
    var t := u.(completed := s.completed + [r.occurrence]);
    forall k | 0 <= k < 3 ensures SlotOk(t, k) {
      assert SlotOk(u, k);
    }
  }

  lemma StillTwice(s: State, t: State, open: seq<nat>)
    requires multiset(s.completed) <= multiset(t.completed) && !Once(multiset(s.completed) + multiset(open))
    ensures !Once(multiset(t.completed) + multiset(open))
  {
    var x :| (multiset(s.completed) + multiset(open))[x] > 1;
    assert (multiset(t.completed) + multiset(open))[x] > 1;
  }

  lemma {:induction false} EvalKeeps(c: Call, s: State, scope: bool)
    requires Inv(s) && s.counter + Begins(c) < WIDTH
    ensures var t := Eval(c, s, scope);
            Inv(t) && Later(s, t) && s.counter <= t.counter <= s.counter + Begins(c)
    decreases c, 0
  {
    hide Inv, BeginsAll, EvalAll, Clear, Issue, Wiped, Eval;
    match c
    case Begin(_, _, _, _, _, _, _, _) => BeginKeeps(c, s, scope);
    case Tick(admitted, body) =>
      TickCase(c, s, scope);
      var inside := s.(ticking := true);
      FlagsKeep(s, inside);
      EvalAllKeeps(body, inside, true);
      var after := EvalAll(body, inside, true);
      FlagsKeep(after, after.(ticking := false));
    case Scope(body) =>
      ScopeCase(c, s, scope);
      EvalAllKeeps(body, s, true);
    case Complete(_, _, _, _) => CompleteKeeps(c, s, scope);
    case Reset =>
      ResetCase(s, scope);
      WipeKeeps(s);
  }

  lemma WipeKeeps(s: State)
    requires Inv(s)
    ensures Inv(Wiped(s)) && Later(s, Wiped(s)) && Wiped(s).counter == s.counter
    ensures Wiped(s).issued == s.issued && Wiped(s).completed == s.completed
  {
    hide Inv, Clear;
    ClearKeeps(s, 1);
    ClearKeeps(Clear(s, 1), 2);
    FlagsKeep(Clear(Clear(s, 1), 2), Wiped(s));
  }

  lemma {:induction false} BeginKeeps(c: Call, s: State, scope: bool)
    requires c.Begin? && Inv(s) && s.counter + Begins(c) < WIDTH
    ensures var t := Eval(c, s, scope);
            Inv(t) && Later(s, t) && s.counter <= t.counter <= s.counter + Begins(c)
    decreases c.body, 2
  {
    hide Inv, BeginsAll, EvalAll, Clear, Issue;
    FlagsKeep(s, s.(blocked := true));
    if !Taken(s, c) || !c.presented {
      EvalAllKeeps(c.body, s, scope);
    } else {
      IssueKeeps(s, c);
      EvalAllKeeps(c.body, Issue(s, c), scope);
      var after := EvalAll(c.body, Issue(s, c), scope);
      ClearKeeps(after, SlotOf(s, c));
      FlagsKeep(Clear(after, SlotOf(s, c)), Failed(after, SlotOf(s, c)));
    }
  }

  lemma {:induction false} CompleteKeeps(c: Call, s: State, scope: bool)
    requires c.Complete? && Inv(s) && s.counter + Begins(c) < WIDTH
    ensures var t := Eval(c, s, scope);
            Inv(t) && Later(s, t) && s.counter <= t.counter <= s.counter + Begins(c)
    decreases c.body, 2
  {
    hide Inv, BeginsAll, EvalAll, Clear;
    if Completable(s, c.request, c.ready, scope) {
      Opened(s, c.request, []);
      EvalAllKeeps(c.body, s, scope || c.request.slot == 2);
      Closed(EvalAll(c.body, s, scope || c.request.slot == 2), c.request, []);
    }
  }

  lemma {:induction false} EvalAllKeeps(cs: seq<Call>, s: State, scope: bool)
    requires Inv(s) && s.counter + BeginsAll(cs) < WIDTH
    ensures var t := EvalAll(cs, s, scope);
            Inv(t) && Later(s, t) && s.counter <= t.counter <= s.counter + BeginsAll(cs)
    decreases cs, 1
  {
    hide Inv, Begins, Eval;
    if cs != [] {
      EvalKeeps(cs[0], s, scope);
      EvalAllKeeps(cs[1..], Eval(cs[0], s, scope), scope);
    }
  }

  lemma StartInv()
    ensures Inv(START)
  {}

  /**
    A slot with a pending death takes no second one: over any calls, as many deaths were issued in a slot as were
    cleared from it, by a completion, a failed begin or a reset, and one more while a death is pending in it.
  */
  lemma DeathsBalance(cs: seq<Call>, slot: nat)
    requires BeginsAll(cs) < WIDTH && Slot(slot)
    ensures var t := EvalAll(cs, START, false);
            multiset(t.issued)[slot] == multiset(t.cleared)[slot] + if Pending(t, slot).occurrence != 0 then 1 else 0
  {
    hide EvalAll, BeginsAll;
    StartInv();
    EvalAllKeeps(cs, START, false);
    assert SlotOk(EvalAll(cs, START, false), slot);
  }

  // ---- At most once ----

  lemma {:induction false} EvalDoubles(c: Call, s: State, scope: bool, open: seq<nat>)
    requires Inv(s) && s.counter + Begins(c) < WIDTH && Once(multiset(s.completed) + multiset(open))
    ensures Once(multiset(Eval(c, s, scope).completed) + multiset(open)) <==> !Reenters(c, s, scope, open)
    decreases c, 0
  {
    hide Inv, BeginsAll, EvalAll, Clear, Issue, Once, ReentersAll, Wiped;
    match c
    case Begin(_, _, _, _, _, presented, good, body) =>
      if !Taken(s, c) || !presented {
        EvalAllDoubles(body, s, scope, open);
      } else {
        IssueKeeps(s, c);
        EvalAllDoubles(body, Issue(s, c), scope, open);
        EvalAllKeeps(body, Issue(s, c), scope);
        ClearKeeps(EvalAll(body, Issue(s, c), scope), SlotOf(s, c));
      }
    case Tick(admitted, body) =>
      FlagsKeep(s, s.(ticking := true));
      EvalAllDoubles(body, s.(ticking := true), true, open);
    case Scope(body) => EvalAllDoubles(body, s, true, open);
    case Complete(r, ready, applied, body) =>
      if Completable(s, r, ready, scope) {
        var inside := scope || r.slot == 2;
        Opened(s, r, open);
        EvalAllKeeps(body, s, inside);
        if !applied {
          EvalAllDoubles(body, s, inside, open);
        } else {
          Closed(EvalAll(body, s, inside), r, open);
          if r.occurrence in open {
            StillTwice(s, EvalAll(body, s, inside), open + [r.occurrence]);
          } else {
            EvalAllDoubles(body, s, inside, open + [r.occurrence]);
          }
        }
      }
    case Reset => WipeKeeps(s);
  }

  lemma {:induction false} EvalAllDoubles(cs: seq<Call>, s: State, scope: bool, open: seq<nat>)
    requires Inv(s) && s.counter + BeginsAll(cs) < WIDTH && Once(multiset(s.completed) + multiset(open))
    ensures Once(multiset(EvalAll(cs, s, scope).completed) + multiset(open)) <==> !ReentersAll(cs, s, scope, open)
    decreases cs, 1
  {
    hide Inv, Begins, Eval, Once, Reenters;
    if cs != [] {
      var t := Eval(cs[0], s, scope);
      EvalDoubles(cs[0], s, scope, open);
      EvalKeeps(cs[0], s, scope);
      if Once(multiset(t.completed) + multiset(open)) {
        EvalAllDoubles(cs[1..], t, scope, open);
      } else {
        EvalAllKeeps(cs[1..], t, scope);
        StillTwice(t, EvalAll(cs[1..], t, scope), open);
      }
    }
  }

  /**
    Over a whole life, resets included, every occurrence completes at most once exactly when no successful completion
    of an occurrence runs inside another successful completion of it.
  */
  lemma CompletedOnce(cs: seq<Call>)
    requires BeginsAll(cs) < WIDTH
    ensures Once(multiset(EvalAll(cs, START, false).completed)) <==> !ReentersAll(cs, START, false, [])
  {
    hide EvalAll, BeginsAll, ReentersAll;
    StartInv();
    EvalAllDoubles(cs, START, false, []);
    var t := EvalAll(cs, START, false);
    assert multiset(t.completed) + multiset([]) == multiset(t.completed);
  }

  // ---- The second player needs no condition ----

  lemma SecondLater(s: State, t: State, scope: bool, open: seq<nat>)
    requires SecondOnce(s, scope, open) && t.issued == s.issued && t.completed == s.completed
    ensures SecondOnce(t, scope, open) && SecondOnce(t, true, open)
  {}

  lemma SecondIssued(s: State, c: Call, scope: bool, open: seq<nat>)
    requires Inv(s) && SecondOnce(s, scope, open) && c.Begin?
    ensures SecondOnce(Issue(s, c), scope, open)
  {
    var t, x := Issue(s, c), |s.issued| + 1;
    assert x !in s.completed && x !in open;
    assert (multiset(s.completed) + multiset(open))[x] == 0;
  }

  /** No scope is open around a completion of the second player's, so none of its occurrences is under way. */
  lemma SecondOpened(s: State, r: Request, scope: bool, open: seq<nat>)
    requires Inv(s) && SecondOnce(s, scope, open) && Completable(s, r, true, scope)
    ensures SecondOnce(s, scope || r.slot == 2, open + [r.occurrence])
  {
    Opened(s, r, open);
    assert SlotOk(s, r.slot);
    var x := r.occurrence;
    var before := multiset(s.completed) + multiset(open);
    var after := multiset(s.completed) + multiset(open + [x]);
    assert forall y :: after[y] == before[y] + if y == x then 1 else 0;
    if r.slot == 2 {
      assert x !in open && before[x] == 0;
    }
    forall y | y in open + [x] && s.issued[y - 1] == 2 ensures scope || r.slot == 2 {
      assert y == x || y in open;
    }
  }

  lemma SecondClosed(s: State, t: State, x: nat, scope: bool, inside: bool, open: seq<nat>)
    requires SecondOnce(s, inside, open + [x]) && t.issued == s.issued
    requires multiset(t.completed) + multiset(open) == multiset(s.completed) + multiset(open + [x])
    requires forall y :: y in open && 1 <= y <= |s.issued| && s.issued[y - 1] == 2 ==> scope
    ensures SecondOnce(t, scope, open)
  {
    forall y | y in open ensures 1 <= y <= |t.issued| {
      assert y in open + [x];
    }
  }

  /** Where a scope was open before is not changed by what ran: numbers keep the slot they were issued to. */
  lemma ScopeKept(s: State, t: State, scope: bool, open: seq<nat>)
    requires SecondOnce(s, scope, open) && s.issued <= t.issued
    ensures forall y :: y in open && 1 <= y <= |t.issued| && t.issued[y - 1] == 2 ==> scope
  {
    forall y | y in open && 1 <= y <= |t.issued| && t.issued[y - 1] == 2 ensures scope {
      assert 1 <= y <= |s.issued| && t.issued[y - 1] == s.issued[y - 1];
    }
  }

  lemma {:induction false} EvalSecond(c: Call, s: State, scope: bool, open: seq<nat>)
    requires Inv(s) && s.counter + Begins(c) < WIDTH && SecondOnce(s, scope, open)
    ensures SecondOnce(Eval(c, s, scope), scope, open)
    decreases c, 0
  {
    hide Inv, BeginsAll, EvalAll, Clear, Issue, SecondOnce, Wiped;
    match c
    case Begin(_, _, _, _, _, presented, good, body) =>
      SecondLater(s, s.(blocked := true), scope, open);
      if !Taken(s, c) || !presented {
        EvalAllSecond(body, s, scope, open);
      } else {
        IssueKeeps(s, c);
        SecondIssued(s, c, scope, open);
        EvalAllSecond(body, Issue(s, c), scope, open);
        EvalAllKeeps(body, Issue(s, c), scope);
        var after := EvalAll(body, Issue(s, c), scope);
        ClearKeeps(after, SlotOf(s, c));
        SecondLater(after, Failed(after, SlotOf(s, c)), scope, open);
      }
    case Tick(admitted, body) =>
      if !scope && !s.blocked && admitted {
        var inside := s.(ticking := true);
        FlagsKeep(s, inside);
        SecondLater(s, inside, scope, open);
        EvalAllSecond(body, inside, true, open);
        EvalAllKeeps(body, inside, true);
        SecondScoped(s, EvalAll(body, inside, true), scope, open);
        SecondLater(EvalAll(body, inside, true), Eval(c, s, scope), scope, open);
      }
    case Scope(body) =>
      SecondLater(s, s, scope, open);
      EvalAllSecond(body, s, true, open);
      EvalAllKeeps(body, s, true);
      SecondScoped(s, EvalAll(body, s, true), scope, open);
    case Complete(r, ready, applied, body) =>
      if Completable(s, r, ready, scope) {
        var inside := scope || r.slot == 2;
        EvalAllKeeps(body, s, inside);
        var after := EvalAll(body, s, inside);
        SecondLater(s, s, scope, open);
        if !applied {
          EvalAllSecond(body, s, inside, open);
          SecondScoped(s, after, scope, open);
        } else {
          SecondOpened(s, r, scope, open);
          EvalAllSecond(body, s, inside, open + [r.occurrence]);
          Opened(s, r, open);
          Closed(after, r, open);
          ScopeKept(s, after, scope, open);
          SecondClosed(after, Eval(c, s, scope), r.occurrence, scope, inside, open);
        }
      }
    case Reset =>
      WipeKeeps(s);
      SecondLater(s, Wiped(s), scope, open);
  }

  lemma SecondScoped(s: State, t: State, scope: bool, open: seq<nat>)
    requires SecondOnce(s, scope, open) && s.issued <= t.issued && exists inner :: SecondOnce(t, inner, open)
    ensures SecondOnce(t, scope, open)
  {
    ScopeKept(s, t, scope, open);
  }

  lemma {:induction false} EvalAllSecond(cs: seq<Call>, s: State, scope: bool, open: seq<nat>)
    requires Inv(s) && s.counter + BeginsAll(cs) < WIDTH && SecondOnce(s, scope, open)
    ensures SecondOnce(EvalAll(cs, s, scope), scope, open)
    decreases cs, 1
  {
    hide Inv, Begins, Eval, SecondOnce;
    if cs != [] {
      EvalSecond(cs[0], s, scope, open);
      EvalKeeps(cs[0], s, scope);
      EvalAllSecond(cs[1..], Eval(cs[0], s, scope), scope, open);
    }
  }

  /** Every death of the second player completes at most once, whatever calls are made from within whatever calls. */
  lemma SecondCompletedOnce(cs: seq<Call>, occurrence: nat)
    requires BeginsAll(cs) < WIDTH
    requires var t := EvalAll(cs, START, false);
             1 <= occurrence <= |t.issued| && t.issued[occurrence - 1] == 2
    ensures multiset(EvalAll(cs, START, false).completed)[occurrence] <= 1
  {
    hide EvalAll, BeginsAll;
    StartInv();
    EvalAllSecond(cs, START, false, []);
    var t := EvalAll(cs, START, false);
    assert multiset(t.completed) + multiset([]) == multiset(t.completed);
  }

  // ---- The first player: a condition on the calls ----

  /** No death of the first player is completed, at any depth. */
  predicate NoFirst(c: Call)
    decreases c, 0
  {
    match c
    case Begin(_, _, _, _, _, _, _, body) => NoFirstAll(body)
    case Tick(_, body) => NoFirstAll(body)
    case Scope(body) => NoFirstAll(body)
    case Complete(r, _, _, body) => r.slot != 1 && NoFirstAll(body)
    case Reset => true
  }

  predicate NoFirstAll(cs: seq<Call>)
    decreases cs, 1
  {
    cs == [] || (NoFirst(cs[0]) && NoFirstAll(cs[1..]))
  }

  /** No death of the first player is completed from within a completion of one. */
  predicate Flat(c: Call)
    decreases c, 0
  {
    match c
    case Begin(_, _, _, _, _, _, _, body) => FlatAll(body)
    case Tick(_, body) => FlatAll(body)
    case Scope(body) => FlatAll(body)
    case Complete(r, _, _, body) => if r.slot == 1 then NoFirstAll(body) else FlatAll(body)
    case Reset => true
  }

  predicate FlatAll(cs: seq<Call>)
    decreases cs, 1
  {
    cs == [] || (Flat(cs[0]) && FlatAll(cs[1..]))
  }

  /** Occurrences of the first player are not under way. */
  predicate OnlySecond(s: State, open: seq<nat>) {
    forall x :: x in open && 1 <= x <= |s.issued| ==> s.issued[x - 1] == 2
  }

  lemma OnlySecondLater(s: State, t: State, open: seq<nat>)
    requires Issued(s, open) && OnlySecond(s, open) && s.issued <= t.issued
    ensures OnlySecond(t, open)
  {}

  /** A completion of this call can double an occurrence only if it is one of the first player's, under way. */
  lemma CompletionAlone(s: State, r: Request, scope: bool, open: seq<nat>)
    requires Inv(s) && SecondOnce(s, scope, open) && Completable(s, r, true, scope)
    requires r.slot == 2 || OnlySecond(s, open)
    ensures r.occurrence !in open
  {
    Opened(s, r, open);
  }

  lemma {:induction false} QuietCall(c: Call, s: State, scope: bool, open: seq<nat>)
    requires Inv(s) && s.counter + Begins(c) < WIDTH && SecondOnce(s, scope, open) && NoFirst(c)
    ensures !Reenters(c, s, scope, open)
    decreases c, 0
  {
    hide Inv, BeginsAll, EvalAll, SecondOnce, NoFirstAll, ReentersAll, Issue;
    SecondLater(s, s, scope, open);
    match c
    case Begin(_, _, _, _, _, presented, _, body) =>
      if !Taken(s, c) || !presented {
        QuietCalls(body, s, scope, open);
      } else {
        IssueKeeps(s, c);
        SecondIssued(s, c, scope, open);
        QuietCalls(body, Issue(s, c), scope, open);
      }
    case Tick(_, body) =>
      FlagsKeep(s, s.(ticking := true));
      SecondLater(s, s.(ticking := true), scope, open);
      QuietCalls(body, s.(ticking := true), true, open);
    case Scope(body) => QuietCalls(body, s, true, open);
    case Complete(r, ready, applied, body) =>
      if Completable(s, r, ready, scope) {
        CompletionAlone(s, r, scope, open);
        SecondOpened(s, r, scope, open);
        QuietCalls(body, s, scope || r.slot == 2, if applied then open + [r.occurrence] else open);
      }
    case Reset =>
  }

  lemma {:induction false} QuietCalls(cs: seq<Call>, s: State, scope: bool, open: seq<nat>)
    requires Inv(s) && s.counter + BeginsAll(cs) < WIDTH && SecondOnce(s, scope, open) && NoFirstAll(cs)
    ensures !ReentersAll(cs, s, scope, open)
    decreases cs, 1
  {
    hide Inv, Begins, Eval, SecondOnce, NoFirst, Reenters;
    if cs != [] {
      QuietCall(cs[0], s, scope, open);
      EvalKeeps(cs[0], s, scope);
      EvalSecond(cs[0], s, scope, open);
      QuietCalls(cs[1..], Eval(cs[0], s, scope), scope, open);
    }
  }

  lemma {:induction false} FlatCall(c: Call, s: State, scope: bool, open: seq<nat>)
    requires Inv(s) && s.counter + Begins(c) < WIDTH && SecondOnce(s, scope, open) && Flat(c) && OnlySecond(s, open)
    ensures !Reenters(c, s, scope, open)
    decreases c, 0
  {
    UnderWay(s, scope, open);
    hide Inv, BeginsAll, EvalAll, SecondOnce, NoFirstAll, FlatAll, ReentersAll, Issue, OnlySecond, Issued;
    SecondLater(s, s, scope, open);
    match c
    case Begin(_, _, _, _, _, presented, _, body) =>
      if !Taken(s, c) || !presented {
        FlatCalls(body, s, scope, open);
      } else {
        IssueKeeps(s, c);
        SecondIssued(s, c, scope, open);
        OnlySecondLater(s, Issue(s, c), open);
        FlatCalls(body, Issue(s, c), scope, open);
      }
    case Tick(_, body) =>
      FlagsKeep(s, s.(ticking := true));
      SecondLater(s, s.(ticking := true), scope, open);
      OnlySecondLater(s, s.(ticking := true), open);
      FlatCalls(body, s.(ticking := true), true, open);
    case Scope(body) => FlatCalls(body, s, true, open);
    case Complete(r, ready, applied, body) =>
      if Completable(s, r, ready, scope) {
        CompletionAlone(s, r, scope, open);
        SecondOpened(s, r, scope, open);
        var next := if applied then open + [r.occurrence] else open;
        if r.slot == 1 {
          QuietCalls(body, s, scope, next);
        } else {
          SecondUnderWay(s, r, open);
          FlatCalls(body, s, true, next);
        }
      }
    case Reset =>
  }

  lemma UnderWay(s: State, scope: bool, open: seq<nat>)
    requires SecondOnce(s, scope, open)
    ensures Issued(s, open)
  {}

  lemma SecondUnderWay(s: State, r: Request, open: seq<nat>)
    requires Inv(s) && Slot(r.slot) && r.slot == 2 && r.occurrence != 0 && Pending(s, 2) == r && OnlySecond(s, open)
    ensures OnlySecond(s, open + [r.occurrence])
  {
    Opened(s, r, open);
  }

  lemma {:induction false} FlatCalls(cs: seq<Call>, s: State, scope: bool, open: seq<nat>)
    requires Inv(s) && s.counter + BeginsAll(cs) < WIDTH && SecondOnce(s, scope, open)
    requires FlatAll(cs) && OnlySecond(s, open)
    ensures !ReentersAll(cs, s, scope, open)
    decreases cs, 1
  {
    UnderWay(s, scope, open);
    hide Inv, Begins, Eval, SecondOnce, Flat, Reenters, OnlySecond, Issued;
    if cs != [] {
      FlatCall(cs[0], s, scope, open);
      EvalKeeps(cs[0], s, scope);
      EvalSecond(cs[0], s, scope, open);
      OnlySecondLater(s, Eval(cs[0], s, scope), open);
      FlatCalls(cs[1..], Eval(cs[0], s, scope), scope, open);
    }
  }

  /** A caller that never completes the first player's death from within such a completion completes each death once. */
  lemma AtMostOnce(cs: seq<Call>)
    requires BeginsAll(cs) < WIDTH && FlatAll(cs)
    ensures Once(multiset(EvalAll(cs, START, false).completed))
  {
    hide EvalAll, BeginsAll, FlatAll, ReentersAll;
    StartInv();
    FlatCalls(cs, START, false, []);
    CompletedOnce(cs);
  }

  lemma NothingRun(s: State, scope: bool)
    ensures EvalAll([], s, scope) == s
  {}

  /** Completing the first player's pending death from within its own completion would complete it twice. */
  lemma ReentryCompletesTwice(s: State, r: Request, scope: bool)
    requires |s.pending| == 3 && r.slot == 1 && Completable(s, r, true, scope)
    ensures Eval(Complete(r, true, true, [Complete(r, true, true, [])]), s, scope).completed
         == s.completed + [r.occurrence, r.occurrence]
  {
    var inner := Complete(r, true, true, []);
    NothingRun(s, scope);
    var after := Eval(inner, s, scope);
    assert after.completed == s.completed + [r.occurrence];
    NothingRun(after, scope);
    assert [inner][1..] == [];
    assert EvalAll([inner], s, scope) == after;
    assert s.completed + [r.occurrence] + [r.occurrence] == s.completed + [r.occurrence, r.occurrence];
  }

  /** A death of the first player begins; the restart of its completion completes it again. */
  function TwiceCompleting(epoch: nat, nativeId: nat, reason: nat): seq<Call> {
    var r := Request(epoch, 1, nativeId, reason, 1);
    [Begin(false, epoch, nativeId, reason, true, true, true, []),
     Complete(r, true, true, [Complete(r, true, true, [])])]
  }

  /** So a life from the first call on can complete a death twice. */
  lemma LifeCompletingTwice(epoch: nat, nativeId: nat, reason: nat)
    ensures EvalAll(TwiceCompleting(epoch, nativeId, reason), START, false).completed == [1, 1]
  {
    var r := Request(epoch, 1, nativeId, reason, 1);
    var begin := Begin(false, epoch, nativeId, reason, true, true, true, []);
    var again := Complete(r, true, true, [Complete(r, true, true, [])]);
    var s := Issue(START, begin);
    NothingRun(s, false);
    assert Eval(begin, START, false) == s;
    ReentryCompletesTwice(s, r, false);
    var t := Eval(again, s, false);
    NothingRun(t, false);
    assert [begin, again][1..] == [again] && [again][1..] == [];
    assert EvalAll([again], s, false) == t;
  }
}
