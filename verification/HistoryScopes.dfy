/**
  Routing of history queries by saved and restored globals (src/bridge/native_history_context.cpp). What the original
  code does on the engine thread while a hook is on the stack is an arbitrary tree of calls. The class runs the code
  of the source over it; Evaluate is an interpreter that passes its environment down and has no globals.
*/
module HistoryScopes {
  import opened Basics

  /** Return sites: one of the pinned event callers, the pinned UI reader, or anything else. */
  datatype Site = Pinned | UiReader | Elsewhere

  datatype Call =
    | ActionScope(address: nat, owner: nat, actor: nat, epoch: nat, body: seq<Call>)
    | Event(body: seq<Call>)
    | ReadCategory(selects: bool, body: seq<Call>)
    | Query(site: Site)
    | RelationshipQuery
    | Enable(actor: nat, epoch: nat, admitted: bool)
    | Retire
    | Present(reuse: Option<nat>)
    | ResetPresentation

  /** What a query observed: the container it was handed and whether it existed; or whether routing was active. */
  datatype Answer = Handed(container: nat, exists_: bool) | Active(active: bool)

  /** Containers are numbered in order of construction; `next` is the number of the next one. */
  datatype Store = Store(
    primary: nat, secondary: Option<nat>, retiring: bool, actor: nat, epoch: nat,
    presentation: Option<nat>, published: bool, retained: set<nat>, alive: set<nat>, next: nat)

  function Constructed(primary: nat): Store {
    Store(primary, None, false, 0, 0, None, false, {}, {primary}, primary + 1)
  }

  const ROOT_CAPACITY := 16

  // ---- The interpreter without globals ----

  /** Innermost scope (whether it is the second player's), whether queries route to that player, the displayed root. */
  datatype Env = Env(inner: Option<bool>, route: bool, ui: Option<nat>, idle: bool)

  const TOP := Env(None, false, None, true)

  function Disposed(idle: bool, s: Store): Store {
    if idle && s.retiring && s.secondary.Some? then
      s.(secondary := None, retiring := false, actor := 0, epoch := 0, alive := s.alive - {s.secondary.value})
    else s
  }

  function Select(env: Env, selects: bool, s: Store): (Env, Store) {
    if selects && s.presentation.Some? then (env.(ui := s.presentation), s.(published := true))
    else (env.(ui := None), s)
  }

  /** A scope masks its parent: until an event is entered inside it, queries go to the first player. */
  function InScope(env: Env, secondary: bool): Env {
    Env(Some(secondary), false, env.ui, false)
  }

  function InEvent(env: Env): Env {
    env.(route := env.inner == Some(true), idle := false)
  }

  predicate Secondary(s: Store, owner: nat, actor: nat, epoch: nat) {
    s.secondary.Some? && owner == 2 && actor == s.actor && epoch == s.epoch
  }

  function Routed(env: Env, s: Store, site: Site): nat {
    if site == UiReader && env.ui.Some? then env.ui.value
    else if site == Pinned && env.route && s.secondary.Some? then s.secondary.value
    else s.primary
  }

  function Enabled(s: Store, actor: nat, epoch: nat): Store {
    s.(secondary := Some(s.next), retiring := false, actor := actor, epoch := epoch,
       alive := s.alive + {s.next}, next := s.next + 1)
  }

  /** A retained root may be displayed again; otherwise a new one is constructed while there is room to retain it. */
  function Presented(s: Store, reuse: Option<nat>): Store {
    if s.presentation.Some? then s
    else if reuse.Some? && reuse.value in s.retained then
      s.(presentation := reuse, published := true, retained := s.retained - {reuse.value})
    else if |s.retained| >= ROOT_CAPACITY then s
    else s.(presentation := Some(s.next), published := false, alive := s.alive + {s.next}, next := s.next + 1)
  }

  /** A root whose entries were published stays; an unpublished one is deleted. */
  function PresentationReset(s: Store): Store {
    if s.presentation.None? then s
    else if s.published then
      s.(presentation := None, published := false, retained := s.retained + {s.presentation.value})
    else s.(presentation := None, alive := s.alive - {s.presentation.value})
  }

  function Evaluate(env: Env, s: Store, c: Call): (Store, seq<Answer>)
    decreases c, 0
  {
    match c
    case ActionScope(address, owner, actor, epoch, body) =>
      var (t, out) := EvaluateAll(InScope(env, Secondary(s, owner, actor, epoch)), s, body);
      (Disposed(env.idle, t), out)
    case Event(body) =>
      var (t, out) := EvaluateAll(InEvent(env), s, body);
      (Disposed(env.idle, t), out)
    case ReadCategory(selects, body) =>
      var (inside, t) := Select(env, selects, s);
      EvaluateAll(inside, t, body)
    case Query(site) => (s, [Handed(Routed(env, s, site), Routed(env, s, site) in s.alive)])
    case RelationshipQuery => (s, [Active(env.route)])
    case Enable(actor, epoch, admitted) =>
      (if env.idle && s.secondary.None? && admitted && actor != 0 && epoch != 0 then Enabled(s, actor, epoch) else s,
       [])
    case Retire => (if s.secondary.Some? then Disposed(env.idle, s.(retiring := true)) else s, [])
    case Present(reuse) => (Presented(s, reuse), [])
    case ResetPresentation => (PresentationReset(s), [])
  }

  function EvaluateAll(env: Env, s: Store, cs: seq<Call>): (Store, seq<Answer>)
    decreases cs, 1
  {
    if cs == [] then (s, [])
    else
      var (t, first) := Evaluate(env, s, cs[0]);
      var (u, rest) := EvaluateAll(env, t, cs[1..]);
      (u, first + rest)
  }

  lemma ScopeCase(env: Env, s: Store, c: Call)
    requires c.ActionScope?
    ensures var r := EvaluateAll(InScope(env, Secondary(s, c.owner, c.actor, c.epoch)), s, c.body);
            Evaluate(env, s, c) == (Disposed(env.idle, r.0), r.1)
  {}

  lemma EventCase(env: Env, s: Store, c: Call)
    requires c.Event?
    ensures var r := EvaluateAll(InEvent(env), s, c.body);
            Evaluate(env, s, c) == (Disposed(env.idle, r.0), r.1)
  {}

  // ---- The interpreter is safe ----

  predicate StoreSafe(s: Store) {
    && s.primary in s.alive && (forall k :: k in s.alive ==> k < s.next)
    && (s.secondary.Some? ==> s.secondary.value in s.alive && s.secondary.value != s.primary)
    && (s.presentation.Some? ==>
          s.presentation.value in s.alive && s.presentation.value != s.primary
          && s.presentation != s.secondary && s.presentation.value !in s.retained)
    && s.retained <= s.alive && s.primary !in s.retained
    && (s.secondary.Some? ==> s.secondary.value !in s.retained)
  }

  /** A published root: displayed now, or retained. */
  predicate Published(s: Store, root: nat) {
    root in s.retained || (s.presentation == Some(root) && s.published)
  }

  /** The displayed root of an enclosing read is published, so it outlives that read. */
  predicate EnvSafe(env: Env, s: Store) {
    && (env.ui.Some? ==> Published(s, env.ui.value))
    && (env.route || env.inner == Some(true) ==> s.secondary.Some? && !env.idle)
  }

  predicate AllExist(out: seq<Answer>) {
    forall i :: 0 <= i < |out| && out[i].Handed? ==> out[i].exists_
  }

  /** What any call tree leaves: a safe store, every environment still valid, and a nested tree's owner in place. */
  ghost predicate Settled(env: Env, s: Store, t: Store) {
    && StoreSafe(t) && EnvSafe(env, t)
    && (!env.idle ==> t.secondary == s.secondary)
    && (forall root: nat :: Published(s, root) ==> Published(t, root))
  }

  lemma LeafSettles(env: Env, s: Store, c: Call)
    requires StoreSafe(s) && EnvSafe(env, s) && !c.ActionScope? && !c.Event? && !c.ReadCategory?
    ensures Settled(env, s, Evaluate(env, s, c).0) && AllExist(Evaluate(env, s, c).1)
  {}

  lemma DisposedSettles(env: Env, s: Store, t: Store)
    requires EnvSafe(env, s) && Settled(env.(idle := false), s, t)
    ensures Settled(env, s, Disposed(env.idle, t))
  {}

  /** No query is ever handed a deleted container, and nothing deletes the second player's under a running call. */
  lemma {:induction false} CallsAreSafe(env: Env, s: Store, cs: seq<Call>)
    requires StoreSafe(s) && EnvSafe(env, s)
    ensures Settled(env, s, EvaluateAll(env, s, cs).0) && AllExist(EvaluateAll(env, s, cs).1)
    decreases cs, 1
  {
    if cs != [] {
      CallIsSafe(env, s, cs[0]);
      CallsAreSafe(env, Evaluate(env, s, cs[0]).0, cs[1..]);
    }
  }

  lemma {:induction false} CallIsSafe(env: Env, s: Store, c: Call)
    requires StoreSafe(s) && EnvSafe(env, s)
    ensures Settled(env, s, Evaluate(env, s, c).0) && AllExist(Evaluate(env, s, c).1)
    decreases c, 0
  {
    match c
    case ActionScope(_, owner, actor, epoch, body) =>
      var inside := InScope(env, Secondary(s, owner, actor, epoch));
      ScopeCase(env, s, c);
      CallsAreSafe(inside, s, body);
      var t := EvaluateAll(inside, s, body).0;
      assert t.secondary == s.secondary;
      DisposedSettles(env, s, t);
    case Event(body) =>
      EventCase(env, s, c);
      CallsAreSafe(InEvent(env), s, body);
      var t := EvaluateAll(InEvent(env), s, body).0;
      assert t.secondary == s.secondary;
      DisposedSettles(env, s, t);
    case ReadCategory(selects, body) =>
      var (inside, t) := Select(env, selects, s);
      CallsAreSafe(inside, t, body);
    case _ => LeafSettles(env, s, c);
  }

  /** From construction on, whatever the original calls: every query of the session gets a container that exists. */
  lemma SessionIsSafe(primary: nat, cs: seq<Call>)
    ensures var r := EvaluateAll(TOP, Constructed(primary), cs); StoreSafe(r.0) && AllExist(r.1)
  {
    CallsAreSafe(TOP, Constructed(primary), cs);
  }

  // ---- Routing read off the stack of enclosing calls ----

  datatype Frame = ScopeFrame(secondary: bool) | EventFrame | ReadFrame(root: Option<nat>)

  function EnvOf(frames: seq<Frame>): Env {
    if frames == [] then TOP
    else
      var env := EnvOf(frames[..|frames| - 1]);
      match frames[|frames| - 1]
      case ScopeFrame(secondary) => InScope(env, secondary)
      case EventFrame => InEvent(env)
      case ReadFrame(root) => env.(ui := root)
  }

  function Innermost(frames: seq<Frame>): Option<bool> {
    if frames == [] then None
    else if frames[|frames| - 1].ScopeFrame? then Some(frames[|frames| - 1].secondary)
    else Innermost(frames[..|frames| - 1])
  }

  /** Leaving reads aside, the nearest enclosing call is an event. */
  predicate DirectlyInEvent(frames: seq<Frame>) {
    frames != [] &&
    match frames[|frames| - 1]
    case ScopeFrame(_) => false
    case EventFrame => true
    case ReadFrame(_) => DirectlyInEvent(frames[..|frames| - 1])
  }

  /** A pinned query goes to the second player exactly in an event whose innermost scope is that player's own. */
  lemma {:induction false} RoutedByFrames(frames: seq<Frame>)
    ensures EnvOf(frames).inner == Innermost(frames)
    ensures EnvOf(frames).route <==> DirectlyInEvent(frames) && Innermost(frames) == Some(true)
    ensures EnvOf(frames).idle <==> forall i :: 0 <= i < |frames| ==> frames[i].ReadFrame?
  {
    if frames != [] {
      RoutedByFrames(frames[..|frames| - 1]);
    }
  }

  /** The root selected by the nearest enclosing read. */
  function DisplayedRoot(frames: seq<Frame>): Option<nat> {
    if frames == [] then None
    else if frames[|frames| - 1].ReadFrame? then frames[|frames| - 1].root
    else DisplayedRoot(frames[..|frames| - 1])
  }

  lemma {:induction false} DisplayedByFrames(frames: seq<Frame>)
    ensures EnvOf(frames).ui == DisplayedRoot(frames)
  {
    if frames != [] {
      DisplayedByFrames(frames[..|frames| - 1]);
    }
  }

  /**
    Which container a query is handed, and what a relationship query is told, for every stack of enclosing calls: a
    pinned caller gets the second player's directly in an event of that player's own scope, the pinned reader gets the
    root of the nearest read, and everything else gets the first player's.
  */
  lemma HandedByFrames(frames: seq<Frame>, s: Store, site: Site)
    ensures var own := DirectlyInEvent(frames) && Innermost(frames) == Some(true);
            var container :=
              match site
              case Pinned => if own && s.secondary.Some? then s.secondary.value else s.primary
              case UiReader => if DisplayedRoot(frames).Some? then DisplayedRoot(frames).value else s.primary
              case Elsewhere => s.primary;
            && Evaluate(EnvOf(frames), s, Query(site)) == (s, [Handed(container, container in s.alive)])
            && Evaluate(EnvOf(frames), s, RelationshipQuery) == (s, [Active(own)])
  {
    RoutedByFrames(frames);
    DisplayedByFrames(frames);
  }

  /** The frame an enclosing call puts on the stack: a scope is the second player's by owner, actor and epoch. */
  function FrameOf(s: Store, c: Call): Frame
    requires c.ActionScope? || c.Event? || c.ReadCategory?
  {
    match c
    case ActionScope(_, owner, actor, epoch, _) =>
      ScopeFrame(s.secondary.Some? && owner == 2 && actor == s.actor && epoch == s.epoch)
    case Event(_) => EventFrame
    case ReadCategory(selects, _) => ReadFrame(if selects then s.presentation else None)
  }

  /** What an enclosing call answers is what its body answers with its frame on the stack. */
  lemma AnsweredInside(frames: seq<Frame>, s: Store, c: Call)
    requires c.ActionScope? || c.Event? || c.ReadCategory?
    ensures var shown := c.ReadCategory? && c.selects && s.presentation.Some?;
            var t := if shown then s.(published := true) else s;
            Evaluate(EnvOf(frames), s, c).1 == EvaluateAll(EnvOf(frames + [FrameOf(s, c)]), t, c.body).1
  {
    assert (frames + [FrameOf(s, c)])[..|frames|] == frames;
  }

  // ---- The owner over a session ----

  /** The first player's container never changes; under a running call the second player's and its owner do not. */
  predicate OwnersKept(env: Env, s: Store, t: Store) {
    && t.primary == s.primary
    && (!env.idle ==>
          t.secondary == s.secondary && t.actor == s.actor && t.epoch == s.epoch && (s.retiring ==> t.retiring))
  }

  lemma {:induction false} CallsKeepOwners(env: Env, s: Store, cs: seq<Call>)
    ensures OwnersKept(env, s, EvaluateAll(env, s, cs).0)
    decreases cs, 1
  {
    if cs != [] {
      CallKeepsOwners(env, s, cs[0]);
      CallsKeepOwners(env, Evaluate(env, s, cs[0]).0, cs[1..]);
    }
  }

  lemma {:induction false} CallKeepsOwners(env: Env, s: Store, c: Call)
    ensures OwnersKept(env, s, Evaluate(env, s, c).0)
    decreases c, 0
  {
    match c
    case ActionScope(_, owner, actor, epoch, body) =>
      ScopeCase(env, s, c);
      CallsKeepOwners(InScope(env, Secondary(s, owner, actor, epoch)), s, body);
    case Event(body) =>
      EventCase(env, s, c);
      CallsKeepOwners(InEvent(env), s, body);
    case ReadCategory(selects, body) =>
      var (inside, t) := Select(env, selects, s);
      CallsKeepOwners(inside, t, body);
    case _ =>
  }

  lemma {:induction false} EvaluateConcat(env: Env, s: Store, a: seq<Call>, b: seq<Call>)
    ensures var x := EvaluateAll(env, s, a);
            var y := EvaluateAll(env, x.0, b);
            EvaluateAll(env, s, a + b) == (y.0, x.1 + y.1)
    decreases |a|
  {
    hide Evaluate;
    if a == [] {
      assert a + b == b;
      assert [] + EvaluateAll(env, s, b).1 == EvaluateAll(env, s, b).1;
    } else {
      assert (a + b)[0] == a[0] && (a + b)[1..] == a[1..] + b;
      var first := Evaluate(env, s, a[0]);
      EvaluateConcat(env, first.0, a[1..], b);
      var x := EvaluateAll(env, first.0, a[1..]);
      var y := EvaluateAll(env, x.0, b);
      assert first.1 + (x.1 + y.1) == first.1 + x.1 + y.1;
    }
  }

  lemma EvaluateOne(env: Env, s: Store, c: Call)
    ensures EvaluateAll(env, s, [c]) == Evaluate(env, s, c)
  {
    hide Evaluate;
    var r := Evaluate(env, s, c);
    assert EvaluateAll(env, r.0, [c][1..]) == (r.0, []);
    assert r.1 + [] == r.1;
  }

  /** After any session without a second player: what enabling leaves. */
  lemma EnabledOwner(primary: nat, cs: seq<Call>, actor: nat, epoch: nat)
    requires actor != 0 && epoch != 0 && EvaluateAll(TOP, Constructed(primary), cs).0.secondary.None?
    ensures var s := EvaluateAll(TOP, Constructed(primary), cs).0;
            var t := Evaluate(TOP, s, Enable(actor, epoch, true)).0;
            && StoreSafe(t) && t.primary == primary && t.secondary == Some(s.next) && s.next !in s.alive
            && t.actor == actor && t.epoch == epoch && !t.retiring
  {
    var s := EvaluateAll(TOP, Constructed(primary), cs).0;
    SessionIsSafe(primary, cs);
    CallsKeepOwners(TOP, Constructed(primary), cs);
    hide EvaluateAll;
  }

  /**
    From construction on: once a second player is enabled, a pinned query directly in an event of a scope reaches that
    player's new container exactly when the scope names that player by owner, actor and epoch, whatever was called
    before in the session and in the event; otherwise it reaches the first player's.
  */
  lemma SecondPlayerReached(primary: nat, cs: seq<Call>, actor: nat, epoch: nat, scope: Call, before: seq<Call>)
    requires actor != 0 && epoch != 0 && EvaluateAll(TOP, Constructed(primary), cs).0.secondary.None?
    requires scope.ActionScope? && scope.body == [Event(before + [Query(Pinned)])]
    ensures var s := EvaluateAll(TOP, Constructed(primary), cs).0;
            var own := scope.owner == 2 && scope.actor == actor && scope.epoch == epoch;
            var out := EvaluateAll(TOP, s, [Enable(actor, epoch, true), scope]).1;
            && s.next !in s.alive
            && out != [] && out[|out| - 1] == Handed(if own then s.next else primary, true)
  {
    EnabledOwner(primary, cs, actor, epoch);
    var s := EvaluateAll(TOP, Constructed(primary), cs).0;
    var enable := Enable(actor, epoch, true);
    var t := Evaluate(TOP, s, enable).0;
    assert [enable] + [scope] == [enable, scope];
    EvaluateConcat(TOP, s, [enable], [scope]);
    EvaluateOne(TOP, s, enable);
    EvaluateOne(TOP, t, scope);
    hide EvaluateAll, Evaluate;
    InScopedEvent([], t, scope, before);
  }

  /** The last query of an event directly in a scope. */
  lemma InScopedEvent(frames: seq<Frame>, s: Store, scope: Call, before: seq<Call>)
    requires StoreSafe(s) && EnvSafe(EnvOf(frames), s)
    requires scope.ActionScope? && scope.body == [Event(before + [Query(Pinned)])]
    ensures var own := s.secondary.Some? && scope.owner == 2 && scope.actor == s.actor && scope.epoch == s.epoch;
            var out := Evaluate(EnvOf(frames), s, scope).1;
            out != [] && out[|out| - 1] == Handed(if own then s.secondary.value else s.primary, true)
  {
    var scoped := frames + [FrameOf(s, scope)];
    var event := Event(before + [Query(Pinned)]);
    var inner := scoped + [EventFrame];
    AnsweredInside(frames, s, scope);
    AnsweredInside(scoped, s, event);
    EvaluateOne(EnvOf(scoped), s, event);
    assert inner[..|inner| - 1] == scoped && scoped[..|scoped| - 1] == frames;
    assert EnvOf(inner) == InEvent(InScope(EnvOf(frames), FrameOf(s, scope).secondary));
    hide EvaluateAll, Evaluate;
    var t := EvaluateAll(EnvOf(inner), s, before).0;
    CallsKeepOwners(EnvOf(inner), s, before);
    CallsAreSafe(EnvOf(inner), s, before);
    EvaluateConcat(EnvOf(inner), s, before, [Query(Pinned)]);
    EvaluateOne(EnvOf(inner), t, Query(Pinned));
    HandedByFrames(inner, t, Pinned);
  }

  /** A retirement inside a call waits: the second player's container stays until the outermost call returns. */
  lemma RetirementWaits(s: Store, c: Call, before: seq<Call>, after: seq<Call>)
    requires (c.Event? || c.ActionScope?) && c.body == before + [Retire] + after && s.secondary.Some?
    ensures var inside := EnvOf([FrameOf(s, c)]);
            && EvaluateAll(inside, s, c.body).0.secondary == s.secondary
            && var t := Evaluate(TOP, s, c).0;
               t.secondary.None? && !t.retiring && s.secondary.value !in t.alive
  {
    var inside := EnvOf([FrameOf(s, c)]);
    var t := EvaluateAll(inside, s, before).0;
    CallsKeepOwners(inside, s, before);
    EvaluateConcat(inside, s, before, [Retire]);
    EvaluateOne(inside, t, Retire);
    var u := Evaluate(inside, t, Retire).0;
    assert u == t.(retiring := true);
    CallsKeepOwners(inside, u, after);
    EvaluateConcat(inside, s, before + [Retire], after);
    assert [FrameOf(s, c)][..0] == [];
    hide EvaluateAll;
  }

  // ---- Displayed roots ----

  /** There is room for every root that was displayed. */
  predicate RootsFit(s: Store) {
    |s.retained| + (if s.presentation.Some? then 1 else 0) <= ROOT_CAPACITY
  }

  lemma {:induction false} CallsKeepRoots(env: Env, s: Store, cs: seq<Call>)
    requires RootsFit(s)
    ensures RootsFit(EvaluateAll(env, s, cs).0)
    decreases cs, 1
  {
    if cs != [] {
      CallKeepsRoots(env, s, cs[0]);
      CallsKeepRoots(env, Evaluate(env, s, cs[0]).0, cs[1..]);
    }
  }

  lemma {:induction false} CallKeepsRoots(env: Env, s: Store, c: Call)
    requires RootsFit(s)
    ensures RootsFit(Evaluate(env, s, c).0)
    decreases c, 0
  {
    match c
    case ActionScope(_, owner, actor, epoch, body) =>
      ScopeCase(env, s, c);
      CallsKeepRoots(InScope(env, Secondary(s, owner, actor, epoch)), s, body);
    case Event(body) =>
      EventCase(env, s, c);
      CallsKeepRoots(InEvent(env), s, body);
    case ReadCategory(selects, body) =>
      var (inside, t) := Select(env, selects, s);
      CallsKeepRoots(inside, t, body);
    case _ =>
  }

  /** In any session no more than sixteen roots are kept for readers. */
  lemma RootsBounded(primary: nat, cs: seq<Call>)
    ensures RootsFit(EvaluateAll(TOP, Constructed(primary), cs).0)
  {
    CallsKeepRoots(TOP, Constructed(primary), cs);
  }

  const READ := ReadCategory(true, [Query(UiReader)])

  /** What a selecting read shows. */
  lemma ReadShows(env: Env, s: Store)
    ensures var root := if s.presentation.Some? then s.presentation.value else s.primary;
            Evaluate(env, s, READ)
            == (if s.presentation.Some? then s.(published := true) else s, [Handed(root, root in s.alive)])
  {
    var (inside, t) := Select(env, true, s);
    EvaluateOne(inside, t, Query(UiReader));
  }

  /**
    A new root is shown to readers; once read it outlives its reset and can be shown again, as the same root. Not read,
    it is deleted by its reset.
  */
  lemma RootLife(env: Env, s: Store)
    requires StoreSafe(s) && s.presentation.None? && |s.retained| < ROOT_CAPACITY
    ensures var shown := Evaluate(env, s, Present(None)).0;
            var read := Evaluate(env, shown, READ);
            var reset := Evaluate(env, read.0, ResetPresentation).0;
            var again := Evaluate(env, reset, Present(Some(s.next))).0;
            && s.next !in s.alive
            && read.1 == [Handed(s.next, true)] && Evaluate(env, again, READ).1 == [Handed(s.next, true)]
            && reset.presentation.None? && s.next in reset.alive && s.next in reset.retained
            && again.retained == s.retained
            && var unread := Evaluate(env, shown, ResetPresentation).0;
               unread.alive == s.alive && unread.retained == s.retained && unread.presentation.None?
  {
    var shown := Evaluate(env, s, Present(None)).0;
    ReadShows(env, shown);
    var read := Evaluate(env, shown, READ);
    var reset := Evaluate(env, read.0, ResetPresentation).0;
    var again := Evaluate(env, reset, Present(Some(s.next))).0;
    ReadShows(env, again);
  }

  // ---- The code of the source ----

  /** A scope object lives on the stack: its address is not that of a scope still open. */
  predicate Stacked(c: Call, open: set<nat>)
    decreases c, 0
  {
    match c
    case ActionScope(address, _, _, _, body) => address !in open && AllStacked(body, open + {address})
    case Event(body) => AllStacked(body, open)
    case ReadCategory(_, body) => AllStacked(body, open)
    case _ => true
  }

  predicate AllStacked(cs: seq<Call>, open: set<nat>)
    decreases cs, 1
  {
    cs == [] || (Stacked(cs[0], open) && AllStacked(cs[1..], open))
  }

  class HistoryContext {
    var currentScope: Option<nat>
    var scopeSecondary: map<nat, bool>
    var eventSecondary: bool
    var eventOwnerScope: Option<nat>
    var actionDepth: nat
    var eventDepth: nat
    var uiRoot: Option<nat>
    var store: Store

    /** The second player's container, whether it is retiring, and whose it is, are globals of the source too. */
    ghost predicate Valid()
      reads this
    {
      && (currentScope.Some? ==> currentScope.value in scopeSecondary)
      && (eventOwnerScope.Some? ==> eventOwnerScope.value in scopeSecondary)
      && (forall a :: a in scopeSecondary && scopeSecondary[a] ==> store.secondary.Some?)
      && (eventSecondary ==> store.secondary.Some?)
      && (actionDepth == 0 ==> currentScope.None? && scopeSecondary == map[])
      && (eventDepth == 0 ==> !eventSecondary && eventOwnerScope.None?)
    }

    ghost function Environment(): Env
      requires Valid()
      reads this
    {
      Env(if currentScope.None? then None else Some(scopeSecondary[currentScope.value]),
          eventSecondary && currentScope == eventOwnerScope, uiRoot, actionDepth == 0 && eventDepth == 0)
    }

    twostate predicate Restored()
      reads this
    {
      && currentScope == old(currentScope) && scopeSecondary == old(scopeSecondary)
      && eventSecondary == old(eventSecondary) && eventOwnerScope == old(eventOwnerScope)
      && actionDepth == old(actionDepth) && eventDepth == old(eventDepth) && uiRoot == old(uiRoot)
    }

    constructor (primary: nat)
      ensures Valid() && Environment() == TOP
      ensures store == Constructed(primary)
    {
      currentScope, scopeSecondary := None, map[];
      eventSecondary, eventOwnerScope := false, None;
      actionDepth, eventDepth, uiRoot := 0, 0, None;
      store := Constructed(primary);
    }

    method DisposeIfIdle()
      modifies this`store
      ensures store == Disposed(actionDepth == 0 && eventDepth == 0, old(store))
    {
      if !store.retiring || actionDepth > 0 || eventDepth > 0 || store.secondary.None? {
        return;
      }
      var disposing := store.secondary.value;
      store := store.(secondary := None, alive := store.alive - {disposing});
      store := store.(actor := 0, epoch := 0, retiring := false);
    }

    method ManagerHook(site: Site) returns (container: nat)
      requires Valid()
      ensures container == Routed(Environment(), store, site)
    {
      if uiRoot.Some? && site == UiReader {
        return uiRoot.value;
      }
      if eventSecondary && currentScope == eventOwnerScope && store.secondary.Some? && site == Pinned {
        return store.secondary.value;
      }
      return store.primary;
    }

    method RunScope(c: Call) returns (out: seq<Answer>)
      requires Valid() && c.ActionScope? && Stacked(c, scopeSecondary.Keys)
      modifies this
      ensures Valid() && Restored()
      ensures (store, out) == Evaluate(old(Environment()), old(store), c)
      ensures actionDepth > 0 || eventDepth > 0 ==> store.secondary == old(store.secondary)
      decreases c, 0
    {
      hide Evaluate, EvaluateAll;
      ScopeCase(Environment(), store, c);
      var previous := currentScope;
      currentScope := Some(c.address);
      actionDepth := actionDepth + 1;
      var secondary := store.secondary.Some? && c.owner == 2 && c.actor == store.actor && c.epoch == store.epoch;
      scopeSecondary := scopeSecondary[c.address := secondary];
      assert scopeSecondary.Keys == old(scopeSecondary.Keys) + {c.address};
      out := RunAll(c.body);
      assert scopeSecondary - {c.address} == old(scopeSecondary);
      scopeSecondary := scopeSecondary - {c.address};
      currentScope := previous;
      actionDepth := actionDepth - 1;
      DisposeIfIdle();
    }

    method RunEvent(c: Call) returns (out: seq<Answer>)
      requires Valid() && c.Event? && Stacked(c, scopeSecondary.Keys)
      modifies this
      ensures Valid() && Restored()
      ensures (store, out) == Evaluate(old(Environment()), old(store), c)
      ensures actionDepth > 0 || eventDepth > 0 ==> store.secondary == old(store.secondary)
      decreases c, 0
    {
      hide Evaluate, EvaluateAll;
      EventCase(Environment(), store, c);
      var previous := eventSecondary;
      var previousOwner := eventOwnerScope;
      eventSecondary := store.secondary.Some? && currentScope.Some? && scopeSecondary[currentScope.value];
      eventOwnerScope := currentScope;
      eventDepth := eventDepth + 1;
      out := RunAll(c.body);
      eventSecondary := previous;
      eventOwnerScope := previousOwner;
      eventDepth := eventDepth - 1;
      DisposeIfIdle();
    }

    method RunRead(c: Call) returns (out: seq<Answer>)
      requires Valid() && c.ReadCategory? && Stacked(c, scopeSecondary.Keys)
      modifies this
      ensures Valid() && Restored()
      ensures (store, out) == Evaluate(old(Environment()), old(store), c)
      ensures actionDepth > 0 || eventDepth > 0 ==> store.secondary == old(store.secondary)
      decreases c, 0
    {
      var previous := uiRoot;
      uiRoot := None;
      if c.selects && store.presentation.Some? {
        uiRoot := store.presentation;
        store := store.(published := true);
      }
      out := RunAll(c.body);
      uiRoot := previous;
    }

    method RunLeaf(c: Call) returns (out: seq<Answer>)
      requires Valid() && !c.ActionScope? && !c.Event? && !c.ReadCategory?
      modifies this`store
      ensures Valid()
      ensures (store, out) == Evaluate(old(Environment()), old(store), c)
      ensures actionDepth > 0 || eventDepth > 0 ==> store.secondary == old(store.secondary)
    {
      out := [];
      match c
      case Query(site) =>
        var container := ManagerHook(site);
        out := [Handed(container, container in store.alive)];
      case RelationshipQuery =>
        out := [Active(eventSecondary && currentScope == eventOwnerScope && store.secondary.Some?)];
      case Enable(actor, epoch, admitted) =>
        if actor == 0 || epoch == 0 || !admitted || store.secondary.Some? || actionDepth > 0 || eventDepth > 0 {
          return;
        }
        store := store.(alive := store.alive + {store.next}, secondary := Some(store.next), next := store.next + 1);
        store := store.(actor := actor, epoch := epoch, retiring := false);
      case Retire =>
        if store.secondary.Some? {
          store := store.(retiring := true);
          DisposeIfIdle();
        }
      case Present(reuse) =>
        if store.presentation.Some? {
          return;
        }
        if reuse.Some? && reuse.value in store.retained {
          store := store.(presentation := reuse, published := true, retained := store.retained - {reuse.value});
        } else if |store.retained| < ROOT_CAPACITY {
          store := store.(alive := store.alive + {store.next}, presentation := Some(store.next), published := false);
          store := store.(next := store.next + 1);
        }
      case ResetPresentation =>
        if store.presentation.Some? {
          var root := store.presentation.value;
          if store.published {
            store := store.(retained := store.retained + {root});
          } else {
            store := store.(alive := store.alive - {root});
          }
          store := store.(presentation := None, published := false);
        }
    }

    method Run(c: Call) returns (out: seq<Answer>)
      requires Valid() && Stacked(c, scopeSecondary.Keys)
      modifies this
      ensures Valid() && Restored()
      ensures (store, out) == Evaluate(old(Environment()), old(store), c)
      ensures actionDepth > 0 || eventDepth > 0 ==> store.secondary == old(store.secondary)
      decreases c, 1
    {
      match c
      case ActionScope(_, _, _, _, _) => out := RunScope(c);
      case Event(_) => out := RunEvent(c);
      case ReadCategory(_, _) => out := RunRead(c);
      case _ => out := RunLeaf(c);
    }

    /** The globals route every query as the interpreter does, and are all as before when the calls return. */
    method RunAll(cs: seq<Call>) returns (out: seq<Answer>)
      requires Valid() && AllStacked(cs, scopeSecondary.Keys)
      modifies this
      ensures Valid() && Restored()
      ensures (store, out) == EvaluateAll(old(Environment()), old(store), cs)
      ensures actionDepth > 0 || eventDepth > 0 ==> store.secondary == old(store.secondary)
      decreases cs, 2
    {
      if cs == [] {
        return [];
      }
      var first := Run(cs[0]);
      var rest := RunAll(cs[1..]);
      out := first + rest;
    }
  }
}
