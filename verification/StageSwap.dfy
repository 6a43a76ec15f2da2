/**
  The two campaign stages of src/bridge/native_award_context.cpp. Original code only ever sees one global stage; a
  stage scope swaps the second player's stage in and out around calls that belong to that player. Original code is
  any tree of stage changes, of choices made on what it sees, of scopes, of guarded death calls, and of the direct
  assignments with which enabling and restoring start the second player's stage.
*/
module StageSwap {

  datatype Call<!T> =
    | Mutate(change: T -> T)
    | Choose(test: T -> bool, yes: seq<Call<T>>, no: seq<Call<T>>)
    | Scope(body: seq<Call<T>>)
    | Death(admitted: bool, firstLevel: T -> bool, answer: T -> bool, body: seq<Call<T>>)
    | Assign(stage: T)

  datatype Observation<T> = Saw(stage: T) | Answered(result: bool) | PrimaryStageChanged

  // ---- Two separate stores ----

  datatype Stores<T> = Stores(primary: T, secondary: T, trace: seq<Observation<T>>) {
    function Selected(second: bool): T {
      if second then secondary else primary
    }

    function Select(second: bool, stage: T): Stores<T> {
      if second then this.(secondary := stage) else this.(primary := stage)
    }

    function Note(o: Observation<T>): Stores<T> {
      this.(trace := trace + [o])
    }
  }

  function Eval<T>(c: Call<T>, s: Stores<T>, second: bool): Stores<T>
    decreases c, 0
  {
    match c
    case Mutate(change) => s.Note(Saw(s.Selected(second))).Select(second, change(s.Selected(second)))
    case Choose(test, yes, no) => EvalAll(if test(s.Selected(second)) then yes else no, s, second)
    case Scope(body) => EvalAll(body, s, true)
    case Death(admitted, firstLevel, answer, body) =>
      if second || !admitted || !firstLevel(s.secondary) then s.Note(Answered(false))
      else
        var after := EvalAll(body, s, true);
        after.Note(Answered(answer(after.secondary)))
    case Assign(stage) => s.(secondary := stage)
  }

  function EvalAll<T>(cs: seq<Call<T>>, s: Stores<T>, second: bool): Stores<T>
    decreases cs, 1
  {
    if cs == [] then s else EvalAll(cs[1..], Eval(cs[0], s, second), second)
  }

  /** The same calls without the direct assignments that are made while a scope is open. */
  function Kept<T>(c: Call<T>, second: bool): seq<Call<T>>
    decreases c, 0
  {
    match c
    case Mutate(_) => [c]
    case Choose(test, yes, no) => [Choose(test, KeptAll(yes, second), KeptAll(no, second))]
    case Scope(body) => [Scope(KeptAll(body, true))]
    case Death(admitted, firstLevel, answer, body) => [Death(admitted, firstLevel, answer, KeptAll(body, true))]
    case Assign(_) => if second then [] else [c]
  }

  function KeptAll<T>(cs: seq<Call<T>>, second: bool): seq<Call<T>>
    decreases cs, 1
  {
    if cs == [] then [] else Kept(cs[0], second) + KeptAll(cs[1..], second)
  }

  lemma {:induction false} EvalConcat<T>(a: seq<Call<T>>, b: seq<Call<T>>, s: Stores<T>, second: bool)
    ensures EvalAll(a + b, s, second) == EvalAll(b, EvalAll(a, s, second), second)
  {
    hide Eval;
    if a == [] {
      assert a + b == b;
    } else {
      assert (a + b)[1..] == a[1..] + b;
      EvalConcat(a[1..], b, Eval(a[0], s, second), second);
    }
  }

  lemma EvalOne<T>(c: Call<T>, s: Stores<T>, second: bool)
    ensures EvalAll([c], s, second) == Eval(c, s, second)
  {
    hide Eval;
    assert [c][1..] == [];
  }

  // ---- The code: one global stage, one saved copy, one flag ----

  class Awards<!T(==)> {
    var global: T
    var bStage: T
    var contextActive: bool
    var trace: seq<Observation<T>>

    constructor (stage: T, second: T)
      ensures !contextActive && View(stage) == Stores(stage, second, [])
    {
      global, bStage, contextActive, trace := stage, second, false, [];
    }

    /** The two stores these variables stand for; in a scope the first player's stage is the copy its owner saved. */
    ghost function View(saved: T): Stores<T>
      reads this
    {
      if contextActive then Stores(saved, global, trace) else Stores(global, bStage, trace)
    }

    /** Opens a scope: only the outermost one swaps. */
    method Enter() returns (outer: bool, saved: T)
      modifies this
      ensures outer == !old(contextActive) && saved == old(global) && contextActive && trace == old(trace)
      ensures global == if outer then old(bStage) else old(global)
      ensures bStage == old(bStage)
    {
      outer, saved := !contextActive, global;
      if outer {
        global := bStage;
        contextActive := true;
      }
    }

    method Leave(outer: bool, saved: T)
      requires contextActive
      modifies this
      ensures contextActive == !outer && trace == old(trace)
      ensures outer ==> bStage == old(global) && global == saved
      ensures !outer ==> bStage == old(bStage) && global == old(global)
    {
      if outer {
        bStage := global;
        global := saved;
        contextActive := false;
      }
    }

    /** One call: the swapping code keeps exactly the two stores of the model, and sees the stages the model sees. */
    method Run(c: Call<T>, ghost saved: T)
      modifies this
      ensures contextActive == old(contextActive)
      ensures PrimaryStageChanged !in old(trace) ==> PrimaryStageChanged !in trace
      ensures View(saved) == EvalAll(Kept(c, contextActive), old(View(saved)), contextActive)
      decreases c, 0
    {
      hide EvalAll;
      ghost var before := View(saved);
      match c
      case Mutate(change) =>
        EvalOne(c, before, contextActive);
        trace := trace + [Saw(global)];
        global := change(global);
      case Choose(test, yes, no) =>
        EvalOne(Kept(c, contextActive)[0], before, contextActive);
        if test(global) {
          RunAll(yes, saved);
        } else {
          RunAll(no, saved);
        }
      case Scope(body) =>
        EvalOne(Kept(c, contextActive)[0], before, contextActive);
        var outer, primary := Enter();
        ghost var kept := if outer then primary else saved;
        RunAll(body, kept);
        PrimaryUntouched(KeptAll(body, true), before);
        Leave(outer, primary);
      case Death(admitted, firstLevel, answer, body) =>
        EvalOne(Kept(c, contextActive)[0], before, contextActive);
        var result := SecondaryDeath(admitted, firstLevel, answer, body, saved);
        trace := trace + [Answered(result)];
      case Assign(stage) =>
        bStage := stage;
        EvalOne(c, before, contextActive);
        NothingLeft(before, contextActive);
    }

    /**
      The guarded death call. It answers true exactly when no scope is open, the call is admitted, the second player's
      stage is at the first level, and the stage that player is left with satisfies the answer; a refused call changes
      nothing. Its comparison of the first player's stage never finds a change.
    */
    method SecondaryDeath(admitted: bool, firstLevel: T -> bool, answer: T -> bool, body: seq<Call<T>>, ghost saved: T)
      returns (result: bool)
      modifies this
      ensures contextActive == old(contextActive)
      ensures PrimaryStageChanged !in old(trace) ==> PrimaryStageChanged !in trace
      ensures View(saved).Note(Answered(result))
           == Eval(Death(admitted, firstLevel, answer, KeptAll(body, true)), old(View(saved)), contextActive)
      ensures result == (!contextActive && admitted && firstLevel(old(bStage)) && answer(bStage))
      ensures global == old(global)
      ensures contextActive || !admitted || !firstLevel(old(bStage)) ==> bStage == old(bStage) && trace == old(trace)
      decreases body, 2
    {
      hide EvalAll;
      ghost var before := View(saved);
      if contextActive || !admitted || !firstLevel(bStage) {
        return false;
      }
      var primary := global;
      var outer, copy := Enter();
      RunAll(body, copy);
      PrimaryUntouched(KeptAll(body, true), before);
      result := answer(global);
      Leave(outer, copy);
      var same := primary == global;
      trace := trace + if same then [] else [PrimaryStageChanged];
      result := result && same;
    }

    method RunAll(cs: seq<Call<T>>, ghost saved: T)
      modifies this
      ensures contextActive == old(contextActive)
      ensures PrimaryStageChanged !in old(trace) ==> PrimaryStageChanged !in trace
      ensures View(saved) == EvalAll(KeptAll(cs, contextActive), old(View(saved)), contextActive)
      decreases cs, 1
    {
      hide EvalAll, Kept, KeptAll;
      NothingKept<T>(contextActive);
      NothingLeft(View(saved), contextActive);
      for i := 0 to |cs|
        invariant contextActive == old(contextActive)
        invariant PrimaryStageChanged !in old(trace) ==> PrimaryStageChanged !in trace
        invariant View(saved) == EvalAll(KeptAll(cs[..i], contextActive), old(View(saved)), contextActive)
      {
        Run(cs[i], saved);
        KeptStep(cs, i, contextActive);
        EvalConcat(KeptAll(cs[..i], contextActive), Kept(cs[i], contextActive), old(View(saved)), contextActive);
      }
      assert cs[..|cs|] == cs;
    }
  }

  lemma NothingLeft<T>(s: Stores<T>, second: bool)
    ensures EvalAll([], s, second) == s
  {}

  lemma NothingKept<T>(second: bool)
    ensures KeptAll<T>([], second) == []
  {}

  lemma {:induction false} KeptConcat<T>(a: seq<Call<T>>, b: seq<Call<T>>, second: bool)
    ensures KeptAll(a + b, second) == KeptAll(a, second) + KeptAll(b, second)
  {
    hide Kept;
    if a == [] {
      assert a + b == b;
    } else {
      assert (a + b)[1..] == a[1..] + b;
      KeptConcat(a[1..], b, second);
    }
  }

  lemma KeptStep<T>(cs: seq<Call<T>>, i: nat, second: bool)
    requires i < |cs|
    ensures KeptAll(cs[..i + 1], second) == KeptAll(cs[..i], second) + Kept(cs[i], second)
  {
    hide Kept;
    assert cs[..i + 1] == cs[..i] + [cs[i]];
    KeptConcat(cs[..i], [cs[i]], second);
    assert [cs[i]][1..] == [];
  }

  // ---- What the two stores mean ----

  /** Nothing that runs in a scope reaches the first player's stage. */
  lemma {:induction false} PrimaryUntouched<T>(cs: seq<Call<T>>, s: Stores<T>)
    ensures EvalAll(cs, s, true).primary == s.primary
    decreases cs, 1
  {
    if cs != [] {
      CallUntouched(cs[0], s);
      PrimaryUntouched(cs[1..], Eval(cs[0], s, true));
    }
  }

  lemma {:induction false} CallUntouched<T>(c: Call<T>, s: Stores<T>)
    ensures Eval(c, s, true).primary == s.primary
    decreases c, 0
  {
    match c
    case Choose(test, yes, no) =>
      PrimaryUntouched(yes, s);
      PrimaryUntouched(no, s);
    case Scope(body) => PrimaryUntouched(body, s);
    case _ =>
  }

  /** Whatever the second player's stage is and does, the first player's stage ends the same. */
  lemma {:induction false} PrimaryIgnoresSecondary<T>(cs: seq<Call<T>>, s: Stores<T>, t: Stores<T>)
    requires s.primary == t.primary
    ensures EvalAll(cs, s, false).primary == EvalAll(cs, t, false).primary
    decreases cs, 1
  {
    if cs != [] {
      CallIgnoresSecondary(cs[0], s, t);
      PrimaryIgnoresSecondary(cs[1..], Eval(cs[0], s, false), Eval(cs[0], t, false));
    }
  }

  lemma {:induction false} CallIgnoresSecondary<T>(c: Call<T>, s: Stores<T>, t: Stores<T>)
    requires s.primary == t.primary
    ensures Eval(c, s, false).primary == Eval(c, t, false).primary
    decreases c, 0
  {
    hide EvalAll;
    match c
    case Choose(test, yes, no) =>
      PrimaryIgnoresSecondary(if test(s.primary) then yes else no, s, t);
    case Scope(body) =>
      PrimaryUntouched(body, s);
      PrimaryUntouched(body, t);
    case Death(admitted, firstLevel, answer, body) =>
      PrimaryUntouched(body, s);
      PrimaryUntouched(body, t);
    case _ =>
  }

  /** Whatever the first player's stage is, everything in a scope leaves and observes the same. */
  lemma {:induction false} ScopeIgnoresPrimary<T>(cs: seq<Call<T>>, s: Stores<T>, t: Stores<T>)
    requires t == s.(primary := t.primary)
    ensures EvalAll(cs, t, true) == EvalAll(cs, s, true).(primary := t.primary)
    decreases cs, 1
  {
    if cs != [] {
      CallIgnoresPrimary(cs[0], s, t);
      ScopeIgnoresPrimary(cs[1..], Eval(cs[0], s, true), Eval(cs[0], t, true));
    }
  }

  lemma {:induction false} CallIgnoresPrimary<T>(c: Call<T>, s: Stores<T>, t: Stores<T>)
    requires t == s.(primary := t.primary)
    ensures Eval(c, t, true) == Eval(c, s, true).(primary := t.primary)
    decreases c, 0
  {
    hide EvalAll;
    match c
    case Choose(test, yes, no) => ScopeIgnoresPrimary(if test(s.secondary) then yes else no, s, t);
    case Scope(body) => ScopeIgnoresPrimary(body, s, t);
    case _ =>
  }

  /**
    A guarded death call, wherever it is made, leaves the same second stage and gives the same answer whatever the first
    player's stage is, and the first player's stage stays.
  */
  lemma DeathIgnoresPrimary<T>(c: Call<T>, s: Stores<T>, t: Stores<T>, second: bool)
    requires c.Death? && t == s.(primary := t.primary)
    ensures Eval(c, t, second) == Eval(c, s, second).(primary := t.primary)
    ensures Eval(c, s, second).primary == s.primary
  {
    hide EvalAll;
    ScopeIgnoresPrimary(c.body, s, t);
    PrimaryUntouched(c.body, s);
  }

  /**
    Outside a scope it is a scope around its body exactly when it is admitted and the second player's stage is at the
    first level; its answer is then about the stage that player ends with, and false otherwise.
  */
  lemma DeathExactly<T>(c: Call<T>, s: Stores<T>, second: bool)
    requires c.Death?
    ensures var after, scope := Eval(c, s, second), Eval(Scope(c.body), s, second);
            var runs := !second && c.admitted && c.firstLevel(s.secondary);
            && after.secondary == (if runs then scope.secondary else s.secondary)
            && after.trace == (if runs then scope.trace else s.trace)
                              + [Answered(runs && c.answer(after.secondary))]
  {
    hide EvalAll;
  }

  /** The calls with every scope inside another scope replaced by its body. */
  function Unnested<T>(c: Call<T>, second: bool): seq<Call<T>>
    decreases c, 0
  {
    match c
    case Choose(test, yes, no) => [Choose(test, UnnestedAll(yes, second), UnnestedAll(no, second))]
    case Scope(body) => if second then UnnestedAll(body, true) else [Scope(UnnestedAll(body, true))]
    case Death(admitted, firstLevel, answer, body) => [Death(admitted, firstLevel, answer, UnnestedAll(body, true))]
    case _ => [c]
  }

  function UnnestedAll<T>(cs: seq<Call<T>>, second: bool): seq<Call<T>>
    decreases cs, 1
  {
    if cs == [] then [] else Unnested(cs[0], second) + UnnestedAll(cs[1..], second)
  }

  /** Nested scopes are no-ops: taking them away anywhere changes neither stage and nothing that is observed. */
  lemma {:induction false} NestedScopesInvisible<T>(cs: seq<Call<T>>, s: Stores<T>, second: bool)
    ensures EvalAll(UnnestedAll(cs, second), s, second) == EvalAll(cs, s, second)
    decreases cs, 1
  {
    hide Eval, Unnested;
    if cs != [] {
      NestedScopeInvisible(cs[0], s, second);
      EvalConcat(Unnested(cs[0], second), UnnestedAll(cs[1..], second), s, second);
      NestedScopesInvisible(cs[1..], Eval(cs[0], s, second), second);
    }
  }

  lemma {:induction false} NestedScopeInvisible<T>(c: Call<T>, s: Stores<T>, second: bool)
    ensures EvalAll(Unnested(c, second), s, second) == Eval(c, s, second)
    decreases c, 0
  {
    hide EvalAll, UnnestedAll;
    match c
    case Choose(test, yes, no) =>
      EvalOne(Unnested(c, second)[0], s, second);
      NestedScopesInvisible(if test(s.Selected(second)) then yes else no, s, second);
    case Scope(body) =>
      NestedScopesInvisible(body, s, true);
      EvalOne(Scope(UnnestedAll(body, true)), s, second);
    case Death(admitted, firstLevel, answer, body) =>
      EvalOne(Unnested(c, second)[0], s, second);
      NestedScopesInvisible(body, s, true);
    case _ =>
      EvalOne(c, s, second);
  }

  // ---- Direct assignments ----

  /** No direct assignment of the second player's stage is made while a scope is open. */
  predicate Outside<T>(c: Call<T>, second: bool)
    decreases c, 0
  {
    match c
    case Mutate(_) => true
    case Choose(_, yes, no) => OutsideAll(yes, second) && OutsideAll(no, second)
    case Scope(body) => OutsideAll(body, true)
    case Death(_, _, _, body) => OutsideAll(body, true)
    case Assign(_) => !second
  }

  predicate OutsideAll<T>(cs: seq<Call<T>>, second: bool)
    decreases cs, 1
  {
    cs == [] || (Outside(cs[0], second) && OutsideAll(cs[1..], second))
  }

  /** The calls that take effect are all of them exactly when every direct assignment is outside the scopes. */
  lemma {:induction false} KeptWhole<T>(cs: seq<Call<T>>, second: bool)
    ensures |KeptAll(cs, second)| <= |cs|
    ensures KeptAll(cs, second) == cs <==> OutsideAll(cs, second)
    decreases cs, 1
  {
    if cs != [] {
      KeptOne(cs[0], second);
      KeptWhole(cs[1..], second);
      var front, back := Kept(cs[0], second), KeptAll(cs[1..], second);
      assert cs == [cs[0]] + cs[1..];
      if front + back == cs {
        assert |front| == 1 && |back| == |cs| - 1;
        assert front[0] == (front + back)[0];
        assert (front + back)[1..] == back;
      }
    }
  }

  lemma {:induction false} KeptOne<T>(c: Call<T>, second: bool)
    ensures |Kept(c, second)| <= 1
    ensures Kept(c, second) == [c] <==> Outside(c, second)
    decreases c, 0
  {
    match c
    case Choose(test, yes, no) =>
      KeptWhole(yes, second);
      KeptWhole(no, second);
    case Scope(body) => KeptWhole(body, true);
    case Death(admitted, firstLevel, answer, body) => KeptWhole(body, true);
    case _ =>
  }

  /** What the swapping code leaves of two stores, and what the plain two-store model would leave. */
  function CodeStores<T>(cs: seq<Call<T>>, s: Stores<T>): Stores<T> {
    EvalAll(KeptAll(cs, false), s, false)
  }

  /** When every direct assignment is outside the scopes, the code is the plain two-store model. */
  lemma TwoStores<T>(cs: seq<Call<T>>, s: Stores<T>)
    requires OutsideAll(cs, false)
    ensures CodeStores(cs, s) == EvalAll(cs, s, false)
  {
    KeptWhole(cs, false);
  }

  /**
    After any calls without assignments in a scope, a last assignment in that scope makes the code leave other stores
    than the plain model exactly when it assigns another stage than those calls have left: the scope's end overwrites
    it, whatever it is.
  */
  lemma AssignmentInsideIsLost<T>(pre: seq<Call<T>>, stage: T, s: Stores<T>)
    requires OutsideAll(pre, true)
    ensures var calls := [Scope(pre + [Assign(stage)])];
            && CodeStores(calls, s) == EvalAll(pre, s, true)
            && EvalAll(calls, s, false) == EvalAll(pre, s, true).(secondary := stage)
            && (CodeStores(calls, s) != EvalAll(calls, s, false) <==> stage != EvalAll(pre, s, true).secondary)
  {
    var body := pre + [Assign(stage)];
    KeptConcat(pre, [Assign(stage)], true);
    KeptWhole(pre, true);
    assert KeptAll([Assign(stage)], true) == [];
    assert KeptAll(body, true) == pre;
    assert KeptAll([Scope(body)], false) == [Scope(pre)];
    hide KeptAll, Kept, OutsideAll;
    EvalOne(Scope(pre), s, false);
    EvalOne(Scope(body), s, false);
    EvalConcat(pre, [Assign(stage)], s, true);
    EvalOne(Assign(stage), EvalAll(pre, s, true), true);
  }
}
