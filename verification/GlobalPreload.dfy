/** The grant loop of one process (src/bridge/native_global_preload.cpp) around its admission state. */
module GlobalPreload {
  import opened GlobalAdmission

  /** What this process was started as: the selected peer configuration, and its own identity. */
  datatype Selected = Selected(
    role: nat, location: seq<nat>, loadSlot: nat, transfer: nat, workerGeneration: nat, pid: nat, created: nat)

  datatype Frame = Frame(
    nonce: nat, location: seq<nat>, processId: nat, processCreated: nat, loadSlot: nat, transfer: nat,
    universe: nat, checkpoint: nat, revision: nat, worker: nat, workerGeneration: nat,
    ttl: nat, mask: nat, owners: seq<Lease>)
  {
    predicate Sized() {
      |owners| == 4
    }
  }

  datatype Event = Connected | GrantPacket(role: nat, frame: Frame) | Other {
    predicate Sized() {
      GrantPacket? ==> frame.Sized()
    }
  }

  /**
    One polled event with what the process observes while it handles it: the clock, whether transport and supervisor
    are up, and whether the native guard can be bound (the abstract platform checks of arm_global_process).
  */
  datatype Polled = Polled(event: Event, now: nat, up: bool, bindable: bool)

  datatype Preload = Preload(
    sel: Selected, guard: Admission, nonce: nat, sent: nat, nextRenew: nat,
    installed: bool, pending: bool, fenced: bool)

  function Started(sel: Selected, now: nat): Preload {
    Preload(sel, INITIAL, 1, now, 0, false, true, false)
  }

  function Fence(p: Preload): Preload {
    p.(fenced := true, guard := if p.installed then Revoke(p.guard) else p.guard)
  }

  predicate OutOfScope(p: Preload, role: nat, f: Frame) {
    || role != p.sel.role || f.nonce != p.nonce || f.location != p.sel.location
    || f.processId != p.sel.pid || f.processCreated != p.sel.created
    || f.loadSlot != p.sel.loadSlot || f.transfer != p.sel.transfer
    || (p.sel.role == AUTHORITY && f.workerGeneration != p.sel.workerGeneration)
  }

  /** The lifetime of a grant counts from the moment its request was sent. */
  function NativeGrant(p: Preload, f: Frame): (g: Grant)
    requires f.Sized()
    ensures g.Sized()
  {
    Grant(Context(p.sel.role, f.universe, f.checkpoint, f.location, f.revision, f.worker, f.workerGeneration,
                  p.sel.created, p.sel.pid),
          f.owners, p.nonce, p.sent, f.ttl, f.mask)
  }

  /** The first grant arms the guard; false when it cannot be armed. */
  predicate CanArm(p: Preload, g: Grant, bindable: bool) {
    bindable && !p.guard.armed && ValidContext(g.context)
  }

  function Accept(p: Preload, role: nat, f: Frame, now: nat, up: bool, bindable: bool): (q: Preload)
    requires p.guard.grant.Sized() && f.Sized()
    ensures q.guard.grant.Sized()
  {
    if OutOfScope(p, role, f) then Fence(p)
    else
      var g := NativeGrant(p, f);
      if !p.installed && !CanArm(p, g, bindable) then Fence(p)
      else
        var armed := if p.installed then p.guard else Arm(p.guard, g.context);
        if !Installable(armed, g, now, !p.fenced && up) then Fence(p.(guard := armed))
        else p.(guard := Install(armed, g, now, !p.fenced && up), installed := true, pending := false,
                nextRenew := p.sent + f.ttl / 6)
  }

  function Handle(p: Preload, e: Polled): (q: Preload)
    requires p.guard.grant.Sized() && e.event.Sized()
    ensures q.guard.grant.Sized()
  {
    if e.event.Connected? then p
    else if !e.event.GrantPacket? || !p.pending then Fence(p)
    else Accept(p, e.event.role, e.event.frame, e.now, e.up, e.bindable)
  }

  function HandleAll(p: Preload, es: seq<Polled>): (q: Preload)
    requires p.guard.grant.Sized() && forall e :: e in es ==> e.event.Sized()
    ensures q.guard.grant.Sized()
    decreases es
  {
    if es == [] then p
    else
      var q := Handle(p, es[0]);
      if q.fenced then q else HandleAll(q, es[1..])
  }

  predicate Ready(p: Preload, now: nat, up: bool) {
    var permit := PermitAt(p.guard, now, !p.fenced && up);
    permit == Owner || permit == ReaderPermit
  }

  /** now is read once; the readiness test reads the clock again, no earlier. */
  function Keep(p: Preload, now: nat, later: nat, up: bool, sendable: bool, preloadTtl: nat): Preload {
    if p.installed && !Ready(p, later, up) then Fence(p)
    else if p.pending && p.sent <= now && now - p.sent >= preloadTtl then Fence(p)
    else if p.installed && !p.pending && now >= p.nextRenew then
      if p.nonce == U64_MAX then Fence(p)
      else
        var q := p.(nonce := p.nonce + 1, sent := now, pending := true);
        if sendable then q else Fence(q)
    else p
  }

  /** What one update observes after its packets. */
  datatype Tail = Tail(now: nat, later: nat, up: bool, sendable: bool)

  function Update(p: Preload, es: seq<Polled>, t: Tail, preloadTtl: nat): (q: Preload)
    requires p.guard.grant.Sized() && forall e :: e in es ==> e.event.Sized()
    ensures q.guard.grant.Sized()
  {
    if p.fenced then Fence(p)
    else
      var q := HandleAll(p, if |es| <= 16 then es else es[..16]);
      if q.fenced then q else Keep(q, t.now, t.later, t.up, t.sendable, preloadTtl)
  }

  class NativeGlobalPreload {
    const sel: Selected
    const guard: NativeGlobalAdmission
    var nonce: nat
    var sent: nat
    var nextRenew: nat
    var installed: bool
    var pending: bool
    var fenced: bool

    function State(): Preload
      reads this, guard
    {
      Preload(sel, guard.State(), nonce, sent, nextRenew, installed, pending, fenced)
    }

    ghost predicate Valid()
      reads this, guard
    {
      guard.grant.Sized()
    }

    constructor (selected: Selected, now: nat)
      ensures Valid() && fresh(guard) && State() == Started(selected, now)
    {
      sel := selected;
      guard := new NativeGlobalAdmission();
      nonce, sent, nextRenew := 1, now, 0;
      installed, pending, fenced := false, true, false;
    }

    method FencePreload()
      requires Valid()
      modifies this, guard
      ensures Valid() && State() == Fence(old(State()))
    {
      fenced := true;
      if installed {
        guard.RevokeGrant();
      }
    }

    method AcceptGrant(role: nat, frame: Frame, now: nat, up: bool, bindable: bool) returns (ok: bool)
      requires Valid() && frame.Sized() && !fenced
      modifies this, guard
      ensures Valid() && State() == Accept(old(State()), role, frame, now, up, bindable)
      ensures ok == !fenced
    {
      if OutOfScope(State(), role, frame) {
        FencePreload();
        return false;
      }
      var native := NativeGrant(State(), frame);
      if !installed {
        var armed := false;
        if bindable {
          armed := guard.ArmWith(native.context);
        }
        if !armed {
          FencePreload();
          return false;
        }
      }
      var done := guard.InstallGrant(native, now, !fenced && up);
      if !done {
        FencePreload();
        return false;
      }
      installed := true;
      pending := false;
      nextRenew := sent + frame.ttl / 6;
      return true;
    }

    method KeepGrantCurrent(t: Tail, preloadTtl: nat) returns (ok: bool)
      requires Valid() && !fenced
      requires sent <= t.now <= t.later
      modifies this, guard
      ensures Valid() && State() == Keep(old(State()), t.now, t.later, t.up, t.sendable, preloadTtl)
      ensures ok == !fenced
    {
      if installed {
        var permit := guard.PermitNow(t.later, !fenced && t.up);
        if permit != Owner && permit != ReaderPermit {
          FencePreload();
          return false;
        }
      }
      if pending && t.now - sent >= preloadTtl {
        FencePreload();
        return false;
      }
      if installed && !pending && t.now >= nextRenew {
        if nonce == U64_MAX {
          FencePreload();
          return false;
        }
        nonce := nonce + 1;
        sent := t.now;
        pending := true;
        if !t.sendable {
          FencePreload();
          return false;
        }
      }
      return true;
    }

    /** One engine update: at most sixteen polled events, then the upkeep. */
    method UpdatePreload(events: seq<Polled>, t: Tail, preloadTtl: nat) returns (ok: bool)
      requires Valid() && sent <= t.now <= t.later && forall e :: e in events ==> e.event.Sized()
      modifies this, guard
      ensures Valid() && State() == Update(old(State()), events, t, preloadTtl)
      ensures ok == !fenced
    {
      if fenced {
        FencePreload();
        return false;
      }
      var batch := if |events| <= 16 then events else events[..16];
      var count := 0;
      while count < |batch|
        invariant count <= |batch| && Valid() && !fenced && sent == old(sent)
        invariant HandleAll(old(State()), batch) == HandleAll(State(), batch[count..])
      {
        var polled := batch[count];
        assert batch[count..][0] == polled && batch[count..][1..] == batch[count + 1..];
        count := count + 1;
        if polled.event.Connected? {
          continue;
        }
        if !polled.event.GrantPacket? || !pending {
          FencePreload();
          return false;
        }
        var accepted := AcceptGrant(polled.event.role, polled.event.frame, polled.now, polled.up, polled.bindable);
        if !accepted {
          return false;
        }
      }
      ok := KeepGrantCurrent(t, preloadTtl);
    }
  }

  // ---- Whole runs of one process ----

  /** A granted process: it is armed, its grant was asked for under a nonce not after the current one. */
  predicate Sane(p: Preload)
    requires p.guard.grant.Sized()
  {
    && Sound(p.guard)
    && p.guard.grant.nonce <= p.nonce
    && (p.installed <==> p.guard.grant.nonce != 0)
    && (p.pending ==> p.guard.grant.nonce < p.nonce)
    && (p.installed && p.fenced ==> p.guard.revoked)
    && p.nextRenew <= U64_MAX
  }

  predicate Moves(p: Preload, q: Preload)
    requires p.guard.grant.Sized() && q.guard.grant.Sized()
  {
    && q.sel == p.sel && KeepsRole(p.guard, q.guard)
    && p.nonce <= q.nonce && (q.nonce == p.nonce ==> q.sent == p.sent)
    && (p.fenced ==> q.fenced) && (p.installed ==> q.installed)
  }

  lemma FenceSane(p: Preload)
    requires p.guard.grant.Sized() && Sane(p)
    ensures Sane(Fence(p)) && Moves(p, Fence(p)) && Fence(p).fenced
  {}

  lemma HandleSane(p: Preload, e: Polled)
    requires p.guard.grant.Sized() && e.event.Sized() && Sane(p)
    ensures Sane(Handle(p, e)) && Moves(p, Handle(p, e))
  {
    FenceSane(p);
    if e.event.GrantPacket? && p.pending && !OutOfScope(p, e.event.role, e.event.frame) {
      var g := NativeGrant(p, e.event.frame);
      var armed := if p.installed then p.guard else Arm(p.guard, g.context);
      var live := !p.fenced && e.up;
      if p.installed || CanArm(p, g, e.bindable) {
        FenceSane(p.(guard := armed));
        if Installable(armed, g, e.now, live) {
          ApplyKeepsRole(armed, InstallOp(g, e.now, live));
        }
      }
    }
  }

  lemma {:induction false} HandleAllSane(p: Preload, es: seq<Polled>)
    requires p.guard.grant.Sized() && Sane(p) && forall e :: e in es ==> e.event.Sized()
    ensures Sane(HandleAll(p, es)) && Moves(p, HandleAll(p, es))
    decreases es
  {
    if es != [] {
      HandleSane(p, es[0]);
      if !Handle(p, es[0]).fenced {
        HandleAllSane(Handle(p, es[0]), es[1..]);
      }
    }
  }

  lemma KeepSane(p: Preload, t: Tail, preloadTtl: nat)
    requires p.guard.grant.Sized() && Sane(p)
    ensures var q := Keep(p, t.now, t.later, t.up, t.sendable, preloadTtl); Sane(q) && Moves(p, q)
  {
    FenceSane(p);
  }

  lemma UpdateSane(p: Preload, es: seq<Polled>, t: Tail, preloadTtl: nat)
    requires p.guard.grant.Sized() && Sane(p) && forall e :: e in es ==> e.event.Sized()
    ensures Sane(Update(p, es, t, preloadTtl)) && Moves(p, Update(p, es, t, preloadTtl))
  {
    FenceSane(p);
    if !p.fenced {
      var batch := if |es| <= 16 then es else es[..16];
      HandleAllSane(p, batch);
      var q := HandleAll(p, batch);
      if !q.fenced {
        KeepSane(q, t, preloadTtl);
      }
    }
  }

  datatype Turn = Turn(events: seq<Polled>, tail: Tail)

  predicate Sized(turns: seq<Turn>) {
    forall turn :: turn in turns ==> forall e :: e in turn.events ==> e.event.Sized()
  }

  function RunTurns(p: Preload, turns: seq<Turn>, preloadTtl: nat): (q: Preload)
    requires p.guard.grant.Sized() && Sized(turns)
    ensures q.guard.grant.Sized()
    decreases turns
  {
    if turns == [] then p else RunTurns(Update(p, turns[0].events, turns[0].tail, preloadTtl), turns[1..], preloadTtl)
  }

  /** Over any run of updates the role, the followed owner and the request order are kept, and a fence stays. */
  lemma {:induction false} RunKeepsRole(p: Preload, turns: seq<Turn>, preloadTtl: nat)
    requires p.guard.grant.Sized() && Sane(p) && Sized(turns)
    ensures Sane(RunTurns(p, turns, preloadTtl)) && Moves(p, RunTurns(p, turns, preloadTtl))
    decreases turns
  {
    if turns != [] {
      UpdateSane(p, turns[0].events, turns[0].tail, preloadTtl);
      RunKeepsRole(Update(p, turns[0].events, turns[0].tail, preloadTtl), turns[1..], preloadTtl);
    }
  }

  /** A fenced process is denied for the rest of the run, whatever it receives and whatever the clock says. */
  lemma FencedForever(p: Preload, turns: seq<Turn>, preloadTtl: nat, now: nat, up: bool)
    requires p.guard.grant.Sized() && Sane(p) && Sized(turns) && p.fenced
    ensures !Ready(RunTurns(p, turns, preloadTtl), now, up)
  {
    RunKeepsRole(p, turns, preloadTtl);
  }

  /** The process holds a grant that is past its deadline at this time, or revoked. */
  predicate Lost(p: Preload, since: nat) {
    p.installed && Lapsed(p.guard, since)
  }

  predicate Since(turns: seq<Turn>, since: nat) {
    forall turn :: turn in turns ==> forall e :: e in turn.events ==> since <= e.now
  }

  lemma {:induction false} HandleAllLost(p: Preload, es: seq<Polled>, since: nat)
    requires p.guard.grant.Sized() && forall e :: e in es ==> e.event.Sized() && since <= e.now
    requires Lost(p, since)
    ensures Lost(HandleAll(p, es), since)
    decreases es
  {
    if es != [] {
      assert Lost(Handle(p, es[0]), since);
      if !Handle(p, es[0]).fenced {
        HandleAllLost(Handle(p, es[0]), es[1..], since);
      }
    }
  }

  /** An expired or revoked grant is never followed by another one: no renewal, however timed, brings it back. */
  lemma {:induction false} LostForever(p: Preload, turns: seq<Turn>, preloadTtl: nat, since: nat, now: nat, up: bool)
    requires p.guard.grant.Sized() && Sized(turns) && Since(turns, since) && since <= now
    requires Lost(p, since)
    ensures !Ready(RunTurns(p, turns, preloadTtl), now, up)
    decreases turns
  {
    if turns != [] {
      var es, t := turns[0].events, turns[0].tail;
      if !p.fenced {
        HandleAllLost(p, if |es| <= 16 then es else es[..16], since);
      }
      var q := Update(p, es, t, preloadTtl);
      assert Lost(q, since);
      LostForever(q, turns[1..], preloadTtl, since, now, up);
    }
  }

  // ---- A grant is kept ----

  /**
    After an accepted grant, while it runs and the transport is up: an update in the first sixth of its lifetime asks
    for nothing, and the first one after that asks once, under the next nonce and with its own send time.
  */
  lemma RenewalDue(p: Preload, role: nat, f: Frame, e: Polled, t: Tail, preloadTtl: nat)
    requires p.guard.grant.Sized() && f.Sized() && Sane(p) && p.pending && !p.fenced
    requires e.event == GrantPacket(role, f) && !Handle(p, e).fenced && p.nonce < U64_MAX
    requires p.sent <= t.now <= t.later < p.sent + f.ttl && t.up && t.sendable
    ensures var q := Handle(p, e);
            && Ready(q, t.later, true) && q.guard.deadline == p.sent + f.ttl && q.sent == p.sent && q.nonce == p.nonce
            && Update(q, [], t, preloadTtl)
               == if t.now < p.sent + f.ttl / 6 then q else q.(nonce := p.nonce + 1, sent := t.now, pending := true)
  {
    HandleSane(p, e);
    if !OutOfScope(p, role, f) {
      var g := NativeGrant(p, f);
      assert p.installed || CanArm(p, g, e.bindable);
      var armed := if p.installed then p.guard else Arm(p.guard, g.context);
      assert Installable(armed, g, e.now, !p.fenced && e.up);
    }
  }

  /** The lifetime of the grants, the time between updates, how long an answer takes, and the timeout of a request. */
  datatype Pace = Pace(ttl: nat, gap: nat, latency: nat, timeout: nat)

  predicate Feasible(k: Pace) {
    && 0 < k.ttl <= MAX_TTL_MS
    && k.ttl / 6 + k.gap + k.latency < k.ttl && 2 * k.latency < k.ttl && k.latency < k.timeout
  }

  predicate Quiet(es: seq<Polled>) {
    forall e :: e in es ==> e.event.Connected?
  }

  /** Among these events there is one grant packet, and it is among the first sixteen. */
  predicate GrantAt(es: seq<Polled>, i: nat) {
    && i < |es| <= 16 && es[i].event.GrantPacket? && es[i].event.Sized()
    && forall j :: 0 <= j < |es| && j != i ==> es[j].event.Connected?
  }

  /** The guard is bound to what the process was selected as. */
  predicate Bound(p: Preload) {
    var v := p.guard.context;
    && v.role == p.sel.role && v.location == p.sel.location
    && v.processId == p.sel.pid && v.processCreated == p.sel.created
    && (p.sel.role == AUTHORITY ==> v.generation == p.sel.workerGeneration)
  }

  /** A grant packet that answers the outstanding request with the same world, the same owner and this lifetime. */
  predicate Renews(p: Preload, e: Event, ttl: nat) {
    && e.GrantPacket? && e.role == p.sel.role
    && var f, v := e.frame, p.guard.context;
       && f.nonce == p.nonce && f.ttl == ttl && f.mask == p.guard.grant.mask && f.owners == p.guard.grant.owners
       && f.location == p.sel.location && f.processId == p.sel.pid && f.processCreated == p.sel.created
       && f.loadSlot == p.sel.loadSlot && f.transfer == p.sel.transfer
       && f.universe == v.universe && f.checkpoint == v.checkpoint && f.revision == v.revision
       && f.worker == v.worker && f.workerGeneration == v.generation
  }

  /**
    An update comes within the gap after the one before, and within the latency after a request that is still out; its
    request is sent; its events are quiet but for an answer.
  */
  ghost predicate Timely(p: Preload, turn: Turn, k: Pace, since: nat) {
    var t := turn.tail;
    && since <= t.now <= t.later <= (if p.pending then p.sent + k.latency else since + k.gap)
    && t.up && t.sendable && t.later + k.ttl <= U64_MAX && p.nonce < U64_MAX
    && (Quiet(turn.events) ||
        (p.pending && exists i: nat :: GrantAt(turn.events, i) && Renews(p, turn.events[i].event, k.ttl)
                                  && turn.events[i].up && since <= turn.events[i].now <= t.now))
  }

  ghost predicate Punctual(p: Preload, turns: seq<Turn>, k: Pace, since: nat)
    requires p.guard.grant.Sized() && Sized(turns)
    decreases turns
  {
    turns == [] ||
    (Timely(p, turns[0], k, since) &&
     Punctual(Update(p, turns[0].events, turns[0].tail, k.timeout), turns[1..], k, turns[0].tail.now))
  }

  /** A process with a running grant as its last update left it. */
  predicate Alive(p: Preload, k: Pace, since: nat) {
    && p.guard.grant.Sized() && Sane(p) && Bound(p)
    && p.installed && !p.fenced && !p.guard.revoked && p.guard.grant.ttl == k.ttl
    && p.guard.grant.sentAt <= p.sent <= since
    && (!p.pending ==>
          p.guard.grant.sentAt == p.sent && p.nextRenew == p.sent + k.ttl / 6 && since < p.nextRenew)
    && (p.pending ==>
          && p.guard.grant.sentAt + k.ttl / 6 <= p.sent && p.sent + k.latency < p.guard.deadline
          && since <= p.sent + k.latency)
  }

  /** So it is ready from then on until the next update must have come. */
  lemma AliveReady(p: Preload, k: Pace, since: nat, now: nat)
    requires Alive(p, k, since) && Feasible(k)
    requires since <= now <= if p.pending then p.sent + k.latency else since + k.gap
    ensures Ready(p, now, true) && now < p.guard.deadline
  {}

  lemma {:induction false} QuietHandled(p: Preload, es: seq<Polled>)
    requires p.guard.grant.Sized() && Quiet(es) && !p.fenced
    ensures HandleAll(p, es) == p
    decreases es
  {
    if es != [] {
      QuietHandled(p, es[1..]);
    }
  }

  lemma {:induction false} GrantHandled(p: Preload, es: seq<Polled>, i: nat)
    requires p.guard.grant.Sized() && GrantAt(es, i) && !p.fenced && !Handle(p, es[i]).fenced
    ensures forall e :: e in es ==> e.event.Sized()
    ensures HandleAll(p, es) == Handle(p, es[i])
    decreases es
  {
    hide Accept;
    if i == 0 {
      assert Quiet(es[1..]);
      QuietHandled(Handle(p, es[0]), es[1..]);
    } else {
      GrantHandled(p, es[1..], i - 1);
    }
  }

  /** An answer that comes in time is accepted: the grant runs from the moment its request was sent. */
  lemma RenewalAccepted(p: Preload, k: Pace, since: nat, e: Polled)
    requires Alive(p, k, since) && Feasible(k) && p.pending && Renews(p, e.event, k.ttl) && e.event.Sized() && e.up
    requires since <= e.now <= p.sent + k.latency && p.sent + k.ttl <= U64_MAX
    ensures var q := Handle(p, e);
            && q == p.(guard := q.guard, pending := false, nextRenew := p.sent + k.ttl / 6)
            && q.guard.grant == NativeGrant(p, e.event.frame) && q.guard.deadline == p.sent + k.ttl
            && q.guard.context == p.guard.context && q.guard.armed && !q.guard.revoked
  {
    var g := NativeGrant(p, e.event.frame);
    assert !OutOfScope(p, e.event.role, e.event.frame);
    assert Continues(p.guard, g, e.now) && Fresh(p.guard, g, e.now);
    assert Installable(p.guard, g, e.now, true);
  }

  /** What one update does to a process whose events were handled. */
  lemma UpkeepAlive(p: Preload, k: Pace, t: Tail)
    requires p.guard.grant.Sized() && Sane(p) && Bound(p) && Feasible(k)
    requires p.installed && !p.fenced && !p.guard.revoked && p.guard.grant.ttl == k.ttl && p.nonce < U64_MAX
    requires p.guard.grant.sentAt <= p.sent <= t.now <= t.later < p.guard.deadline && t.up && t.sendable
    requires p.pending ==>
               p.guard.grant.sentAt + k.ttl / 6 <= p.sent && t.later <= p.sent + k.latency < p.guard.deadline
    requires !p.pending ==>
               && p.guard.grant.sentAt == p.sent && p.nextRenew == p.sent + k.ttl / 6
               && t.later + k.latency < p.sent + k.ttl
    ensures var q := Keep(p, t.now, t.later, t.up, t.sendable, k.timeout);
            Alive(q, k, t.now) && q.guard == p.guard && q.nonce <= p.nonce + 1
  {
    KeepSane(p, t, k.timeout);
  }

  /** The deadline does not fall, and the world and the owner are the same. */
  predicate Follows(p: Preload, q: Preload)
    requires p.guard.grant.Sized() && q.guard.grant.Sized()
  {
    && p.guard.deadline <= q.guard.deadline && q.guard.context == p.guard.context
    && q.guard.grant.mask == p.guard.grant.mask && q.guard.grant.owners == p.guard.grant.owners
  }

  lemma AliveStep(p: Preload, k: Pace, since: nat, turn: Turn)
    requires Alive(p, k, since) && Feasible(k) && Timely(p, turn, k, since)
    requires forall e :: e in turn.events ==> e.event.Sized()
    ensures var q := Update(p, turn.events, turn.tail, k.timeout);
            && Alive(q, k, turn.tail.now) && Follows(p, q)
            && (!Quiet(turn.events) ==> q.guard.deadline >= p.guard.deadline + k.ttl / 6)
  {
    var es, t := turn.events, turn.tail;
    var batch := if |es| <= 16 then es else es[..16];
    if Quiet(es) {
      QuietHandled(p, batch);
      AliveReady(p, k, since, t.later);
      hide Keep, Ready;
      UpkeepAlive(p, k, t);
    } else {
      var i: nat :| GrantAt(es, i) && Renews(p, es[i].event, k.ttl) && es[i].up && since <= es[i].now <= t.now;
      RenewalAccepted(p, k, since, es[i]);
      HandleSane(p, es[i]);
      var q := Handle(p, es[i]);
      hide Handle, Keep, Ready, HandleAll, Moves, KeepsRole;
      GrantHandled(p, es, i);
      UpkeepAlive(q, k, t);
    }
  }

  /**
    A grant is kept: with updates that come in time and requests that are answered in time for the same owner, the
    process stays ready, under the same owner, at every time of any run until the update after it is due, and its
    deadline never falls behind that time.
  */
  lemma {:induction false} GrantKept(p: Preload, turns: seq<Turn>, k: Pace, since: nat, now: nat)
    requires Alive(p, k, since) && Feasible(k) && Sized(turns) && Punctual(p, turns, k, since)
    requires var q := RunTurns(p, turns, k.timeout);
             var last := if turns == [] then since else turns[|turns| - 1].tail.now;
             last <= now <= if q.pending then q.sent + k.latency else last + k.gap
    ensures var q := RunTurns(p, turns, k.timeout);
            && Ready(q, now, true) && now < q.guard.deadline && Follows(p, q)
    decreases turns
  {
    assert p.guard.grant.Sized();
    hide Update, Timely, Alive, Ready;
    if turns == [] {
      AliveReady(p, k, since, now);
    } else {
      var q := Update(p, turns[0].events, turns[0].tail, k.timeout);
      AliveStep(p, k, since, turns[0]);
      GrantKept(q, turns[1..], k, turns[0].tail.now, now);
    }
  }

  /** A first grant: for this process as it was selected, of a world, with one owner that its mask agrees with. */
  predicate FirstFor(sel: Selected, f: Frame, ttl: nat, owner: Lease) {
    && f.nonce == 1 && f.ttl == ttl && f.location == sel.location && f.loadSlot == sel.loadSlot
    && f.transfer == sel.transfer && f.processId == sel.pid != 0 && f.processCreated == sel.created != 0
    && f.universe != 0 && f.checkpoint != 0 && f.revision != 0
    && (forall i :: 0 <= i < |sel.location| ==> sel.location[i] != 0)
    && (f.worker == 0 <==> f.workerGeneration == 0) && owner.worker != 0 && owner.generation != 0
    && f.owners == [owner, owner, owner, owner]
    && if sel.role == AUTHORITY then
         && f.workerGeneration == sel.workerGeneration != 0
         && (owner.worker == f.worker ==> owner.generation == f.workerGeneration)
         && f.mask == if owner.worker == f.worker then ALL_PRODUCERS else 0
       else sel.role == READER && f.mask == 0
  }

  /** A process that receives such a grant in time has a running grant, and is the owner exactly if it is named. */
  lemma FirstGrant(sel: Selected, started: nat, f: Frame, owner: Lease, now: nat, t: Tail, k: Pace)
    requires Feasible(k) && FirstFor(sel, f, k.ttl, owner) && f.Sized()
    requires started <= now <= t.now <= t.later <= started + k.latency && t.up && t.sendable
    requires started + k.ttl <= U64_MAX
    ensures var q := Update(Started(sel, started), [Polled(GrantPacket(sel.role, f), now, true, true)], t, k.timeout);
            && Alive(q, k, t.now)
            && PermitAt(q.guard, t.later, true)
               == if sel.role == AUTHORITY && owner == Lease(f.worker, f.workerGeneration) then Owner else ReaderPermit
  {
    var p, e := Started(sel, started), Polled(GrantPacket(sel.role, f), now, true, true);
    var g := NativeGrant(p, f);
    assert ValidContext(g.context);
    var armed := Arm(p.guard, g.context);
    assert Installable(armed, g, now, true);
    var q := Handle(p, e);
    assert q == p.(guard := armed.(grant := g, deadline := started + f.ttl), installed := true, pending := false,
                   nextRenew := started + f.ttl / 6);
    HandleSane(p, e);
    assert HandleAll(p, [e]) == q;
    hide Handle, Keep, HandleAll;
    UpkeepAlive(q, k, t);
  }

  /** The answer of a coordinator that keeps the owner. */
  function RenewalOf(p: Preload, ttl: nat): Frame {
    var v := p.guard.context;
    Frame(p.nonce, p.sel.location, p.sel.pid, p.sel.created, p.sel.loadSlot, p.sel.transfer, v.universe, v.checkpoint,
          v.revision, v.worker, v.generation, ttl, p.guard.grant.mask, p.guard.grant.owners)
  }

  /** Such a run can always go on, at any time in its bounds, and with the answer if a request is out. */
  lemma CanContinue(p: Preload, k: Pace, since: nat, now: nat) returns (turn: Turn)
    requires Alive(p, k, since) && Feasible(k) && p.nonce < U64_MAX && now + k.ttl <= U64_MAX
    requires since <= now <= if p.pending then p.sent + k.latency else since + k.gap
    ensures Timely(p, turn, k, since) && turn.tail.now == now
    ensures Sized([turn]) && (p.pending ==> !Quiet(turn.events))
  {
    var e := Polled(GrantPacket(p.sel.role, RenewalOf(p, k.ttl)), now, true, true);
    turn := Turn(if p.pending then [e] else [], Tail(now, now, true, true));
    if p.pending {
      assert GrantAt([e], 0) && Renews(p, [e][0].event, k.ttl);
      assert [e][0] in turn.events;
    }
  }

  // ---- What fences a process ----

  /** What is not a grant packet that answers the outstanding request. */
  predicate Unwelcome(p: Preload, e: Event) {
    || e.Other?
    || (e.GrantPacket? &&
        (!p.pending || e.role != p.sel.role || e.frame.nonce != p.nonce || e.frame.location != p.sel.location
         || e.frame.processId != p.sel.pid || e.frame.processCreated != p.sel.created
         || e.frame.loadSlot != p.sel.loadSlot || e.frame.transfer != p.sel.transfer
         || (p.sel.role == AUTHORITY && e.frame.workerGeneration != p.sel.workerGeneration)))
  }

  lemma {:induction false} UnwelcomeHandled(p: Preload, es: seq<Polled>, i: nat)
    requires p.guard.grant.Sized() && i < |es| && Quiet(es[..i]) && Unwelcome(p, es[i].event) && !p.fenced
    requires forall e :: e in es ==> e.event.Sized()
    ensures HandleAll(p, es).fenced
    decreases es
  {
    if i > 0 {
      assert es[0] in es[..i];
      assert es[1..][..i - 1] == es[..i][1..];
      UnwelcomeHandled(p, es[1..], i - 1);
    }
  }

  /** The first event of an update that is neither a connection nor such an answer fences the process. */
  lemma UnwelcomeFences(p: Preload, es: seq<Polled>, i: nat, t: Tail, preloadTtl: nat)
    requires p.guard.grant.Sized() && i < |es| && i < 16 && Quiet(es[..i]) && Unwelcome(p, es[i].event)
    requires forall e :: e in es ==> e.event.Sized()
    ensures Update(p, es, t, preloadTtl).fenced
  {
    if !p.fenced {
      var batch := if |es| <= 16 then es else es[..16];
      assert batch[..i] == es[..i];
      UnwelcomeHandled(p, batch, i);
    }
  }

  /** A request that is not answered fences the process, at an update that comes the timeout after it was sent. */
  lemma {:induction false} UnansweredFences(p: Preload, turns: seq<Turn>, preloadTtl: nat, i: nat)
    requires p.guard.grant.Sized() && Sized(turns) && p.pending
    requires forall turn :: turn in turns ==> Quiet(turn.events)
    requires i < |turns| && turns[i].tail.now >= p.sent + preloadTtl
    ensures RunTurns(p, turns, preloadTtl).fenced
    decreases turns
  {
    var turn := turns[0];
    assert turn in turns;
    var q := Update(p, turn.events, turn.tail, preloadTtl);
    if !p.fenced {
      QuietHandled(p, if |turn.events| <= 16 then turn.events else turn.events[..16]);
    }
    if q.fenced {
      StillFenced(q, turns[1..], preloadTtl);
    } else {
      assert q == p && i > 0;
      UnansweredFences(q, turns[1..], preloadTtl, i - 1);
    }
  }

  lemma {:induction false} StillFenced(p: Preload, turns: seq<Turn>, preloadTtl: nat)
    requires p.guard.grant.Sized() && Sized(turns) && p.fenced
    ensures RunTurns(p, turns, preloadTtl).fenced
    decreases turns
  {
    if turns != [] {
      StillFenced(Update(p, turns[0].events, turns[0].tail, preloadTtl), turns[1..], preloadTtl);
    }
  }

  /** A process with a grant is fenced by an update that finds its transport down or its grant past its deadline. */
  lemma LossFences(p: Preload, es: seq<Polled>, t: Tail, preloadTtl: nat)
    requires p.guard.grant.Sized() && p.installed && p.guard.armed && Quiet(es)
    requires !t.up || t.later >= p.guard.deadline
    ensures Update(p, es, t, preloadTtl).fenced
  {
    if !p.fenced {
      QuietHandled(p, if |es| <= 16 then es else es[..16]);
    }
  }
}
