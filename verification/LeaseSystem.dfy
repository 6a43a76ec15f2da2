/**
  All processes, their mail and the coordinator as one step system. Each process runs the real grant loop
  (GlobalPreload); the network may lose, repeat, delay and misdeliver grants. Clocks run at one rate, each process
  reading its own with a constant offset.

  The coordinator (src/network/coordinator.cpp) is not modelled. What is assumed of it is written into Enabled: it
  tells a process its own worker pair; it answers a process as the owner only while it holds that process to be the
  owner, and then remembers when the lease it answered runs out; it names another owner only when the old owner's
  process is dead or that time has passed.
*/
module LeaseSystem {
  import opened GlobalAdmission
  import opened GlobalPreload

  type Pid = nat

  datatype Proc = Proc(alive: bool, offset: nat, pair: Lease, state: Preload)

  /** A grant in flight, with the process it answers and the time the coordinator issued it. */
  datatype Mail = Mail(to: Pid, role: nat, frame: Frame, issued: nat)

  datatype Ask = Ask(from: Pid, nonce: nat)

  datatype Sys = Sys(
    now: nat, procs: map<Pid, Proc>, asks: set<Ask>, mail: set<Mail>, owner: Pid, owned: bool, leaseEnd: nat)

  const EMPTY := Sys(0, map[], {}, {}, 0, false, 0)

  datatype Step =
    | Tick(d: nat)
    | Start(x: Pid, proc: Proc)
    | Die(x: Pid)
    | Answer(ask: Ask, role: nat, frame: Frame)
    | Appoint(x: Pid)
    | Deliver(x: Pid, m: Mail, up: bool, bindable: bool)
    | Disturb(x: Pid)
    | Upkeep(x: Pid, up: bool, sendable: bool)

  function Local(s: Sys, x: Pid): nat
    requires x in s.procs
  {
    s.now + s.procs[x].offset
  }

  predicate Identity(p: Proc, f: Frame) {
    f.processId == p.state.sel.pid && f.processCreated == p.state.sel.created
  }

  /** No two processes share an operating system identity, and no two authorities share a worker pair. */
  predicate Distinct(p: Proc, q: Proc) {
    && (p.state.sel.pid != q.state.sel.pid || p.state.sel.created != q.state.sel.created)
    && (p.state.sel.role == AUTHORITY && q.state.sel.role == AUTHORITY ==> p.pair != q.pair)
  }

  predicate NamesOwner(p: Proc, f: Frame)
    requires f.Sized()
  {
    p.state.sel.role == AUTHORITY && f.owners[0] == p.pair
  }

  predicate Enabled(s: Sys, step: Step) {
    match step
    case Tick(_) => true
    case Start(x, p) =>
      && x !in s.procs && p.alive && p.state == Started(p.state.sel, s.now + p.offset)
      && (forall y :: y in s.procs ==> Distinct(p, s.procs[y]))
    case Die(x) => x in s.procs
    case Answer(ask, role, f) =>
      && ask in s.asks && ask.from in s.procs && f.Sized() && f.nonce == ask.nonce
      && var p := s.procs[ask.from];
         && Identity(p, f) && Lease(f.worker, f.workerGeneration) == p.pair
         && (NamesOwner(p, f) ==> s.owned && s.owner == ask.from)
    case Appoint(x) =>
      s.owned ==> s.leaseEnd <= s.now || (s.owner in s.procs && !s.procs[s.owner].alive)
    case Deliver(x, m, up, bindable) => x in s.procs && s.procs[x].alive && m in s.mail && m.frame.Sized()
    case Disturb(x) => x in s.procs && s.procs[x].alive
    case Upkeep(x, up, sendable) => x in s.procs && s.procs[x].alive
  }

  function WithState(s: Sys, x: Pid, st: Preload): Sys
    requires x in s.procs
  {
    s.(procs := s.procs[x := s.procs[x].(state := st)])
  }

  /** Asking again after the upkeep of a process, if it sent a request. */
  function Sent(s: Sys, x: Pid, st: Preload): Sys
    requires x in s.procs
  {
    WithState(s, x, st).(asks := s.asks + {Ask(x, st.nonce)})
  }

  /** The four owners of every grant are there. */
  predicate Shaped(s: Sys) {
    && (forall x :: x in s.procs ==> s.procs[x].state.guard.grant.Sized())
    && (forall m :: m in s.mail ==> m.frame.Sized())
  }

  function Next(s: Sys, step: Step, preloadTtl: nat): Sys
    requires Shaped(s) && Enabled(s, step)
  {
    match step
    case Tick(d) => s.(now := s.now + d)
    case Start(x, p) => s.(procs := s.procs[x := p], asks := s.asks + {Ask(x, 1)})
    case Die(x) => s.(procs := s.procs[x := s.procs[x].(alive := false)])
    case Answer(ask, role, f) =>
      var m := Mail(ask.from, role, f, s.now);
      var end := s.now + f.ttl;
      s.(mail := s.mail + {m},
         leaseEnd := if NamesOwner(s.procs[ask.from], f) && end > s.leaseEnd then end else s.leaseEnd)
    case Appoint(x) => s.(owner := x, owned := true, leaseEnd := s.now)
    case Deliver(x, m, up, bindable) =>
      WithState(s, x, Handle(s.procs[x].state, Polled(GrantPacket(m.role, m.frame), Local(s, x), up, bindable)))
    case Disturb(x) => WithState(s, x, Handle(s.procs[x].state, Polled(Other, Local(s, x), false, false)))
    case Upkeep(x, up, sendable) =>
      Sent(s, x, if s.procs[x].state.fenced then s.procs[x].state
                 else Keep(s.procs[x].state, Local(s, x), Local(s, x), up, sendable, preloadTtl))
  }

  // ---- What every step keeps ----

  /** This state, at this time of its own clock, is let through as the owner while its transport is up. */
  predicate Owning(p: Preload, now: nat) {
    && p.guard.armed && !p.guard.revoked && p.guard.grant.nonce != 0 && p.guard.grant.mask == ALL_PRODUCERS
    && now < p.guard.deadline
  }

  predicate Holds(s: Sys, x: Pid)
    requires x in s.procs
  {
    s.procs[x].alive && Owning(s.procs[x].state, Local(s, x))
  }

  /** A packet as it would be handled with everything else in its favour. */
  function Favoured(m: Mail, now: nat): Polled {
    Polled(GrantPacket(m.role, m.frame), now, true, true)
  }

  /** This mail would make its addressee the owner if it arrived now. */
  predicate Deliverable(s: Sys, m: Mail)
    requires Shaped(s) && m in s.mail
  {
    && m.to in s.procs && s.procs[m.to].alive
    && Owning(Handle(s.procs[m.to].state, Favoured(m, Local(s, m.to))), Local(s, m.to))
  }

  predicate Leased(s: Sys, x: Pid, localEnd: nat)
    requires x in s.procs
  {
    s.owned && s.owner == x && localEnd <= s.leaseEnd + s.procs[x].offset
  }

  ghost predicate ProcInv(s: Sys, x: Pid)
    requires x in s.procs
  {
    var p := s.procs[x];
    && p.state.guard.grant.Sized() && Sane(p.state)
    && p.state.sent <= Local(s, x) && (p.state.guard.grant.nonce != 0 ==> p.state.guard.grant.sentAt <= Local(s, x))
    && (p.state.guard.armed ==>
          p.state.guard.context.role == p.state.sel.role
          && Lease(p.state.guard.context.worker, p.state.guard.context.generation) == p.pair)
    && (Holds(s, x) ==> Leased(s, x, p.state.guard.deadline))
  }

  ghost predicate MailInv(s: Sys, m: Mail)
    requires Shaped(s) && m in s.mail
  {
    && m.to in s.procs
    && Identity(s.procs[m.to], m.frame) && Lease(m.frame.worker, m.frame.workerGeneration) == s.procs[m.to].pair
    && m.frame.nonce <= s.procs[m.to].state.nonce
    && (Deliverable(s, m) ==> Leased(s, m.to, s.procs[m.to].state.sent + m.frame.ttl))
  }

  ghost predicate Inv(s: Sys) {
    && Shaped(s)
    && (forall x :: x in s.procs ==> ProcInv(s, x))
    && (forall x, y :: x in s.procs && y in s.procs && x != y ==> Distinct(s.procs[x], s.procs[y]))
    && (forall m :: m in s.mail ==> MailInv(s, m))
    && (forall a :: a in s.asks ==> a.from in s.procs && a.nonce <= s.procs[a.from].state.nonce)
  }

  // ---- What a packet can do to one process ----

  /** No packet can make this state the owner: it would be fenced. */
  ghost predicate Deaf(p: Preload)
    requires p.guard.grant.Sized()
  {
    forall e: Polled :: e.event.Sized() && e.event.GrantPacket? ==> !Owning(Handle(p, e), e.now)
  }

  lemma FencedOwnsNot(p: Preload, now: nat)
    requires p.guard.grant.Sized() && Sane(p)
    ensures !Owning(Fence(p), now)
  {}

  lemma DeafWhen(p: Preload)
    requires p.guard.grant.Sized() && Sane(p) && (p.fenced || !p.pending)
    ensures Deaf(p)
  {
    forall e: Polled | e.event.Sized() && e.event.GrantPacket? ensures !Owning(Handle(p, e), e.now) {
      FencedOwnsNot(p, e.now);
      if p.pending && !OutOfScope(p, e.event.role, e.event.frame) && !p.installed {
        var g := NativeGrant(p, e.event.frame);
        FencedOwnsNot(p.(guard := Arm(p.guard, g.context)), e.now);
      }
    }
  }

  /** A packet that makes a state the owner installs its grant, and so would it with everything else in its favour. */
  lemma OwningInstalls(p: Preload, e: Polled)
    requires p.guard.grant.Sized() && e.event.Sized() && Sane(p) && e.event.GrantPacket?
    requires Owning(Handle(p, e), e.now)
    ensures !OutOfScope(p, e.event.role, e.event.frame)
    ensures var q := Handle(p, e);
            && q.guard.grant == NativeGrant(p, e.event.frame) && q.guard.deadline == p.sent + e.event.frame.ttl
            && !q.pending && q == Handle(p, e.(up := true, bindable := true))
            && (p.guard.armed ==> p.guard.context == q.guard.grant.context)
            && Mine(q.guard.grant.context, e.event.frame.owners[0])
  {
    FencedOwnsNot(p, e.now);
    if p.pending && !OutOfScope(p, e.event.role, e.event.frame) {
      var g := NativeGrant(p, e.event.frame);
      FencedOwnsNot(p.(guard := Arm(p.guard, g.context)), e.now);
    }
  }

  /** What would make a state the owner later would have made it the owner before, once its request was sent. */
  lemma OwningEarlier(p: Preload, m: Mail, now: nat, later: nat)
    requires p.guard.grant.Sized() && m.frame.Sized() && Sane(p) && p.sent <= now <= later
    requires Owning(Handle(p, Favoured(m, later)), later)
    ensures Owning(Handle(p, Favoured(m, now)), now)
  {
    OwningInstalls(p, Favoured(m, later));
  }

  lemma TickStep(s: Sys, d: nat)
    requires Inv(s)
    ensures Inv(s.(now := s.now + d))
  {
    hide Sane, Distinct, Identity, NamesOwner, Handle;
    var t := s.(now := s.now + d);
    forall x | x in t.procs ensures ProcInv(t, x) {
      assert ProcInv(s, x);
    }
    forall m | m in t.mail ensures MailInv(t, m) {
      assert MailInv(s, m) && ProcInv(s, m.to);
      if Deliverable(t, m) {
        OwningEarlier(s.procs[m.to].state, m, Local(s, m.to), Local(t, m.to));
      }
    }
  }

  lemma StartedSane(sel: Selected, now: nat)
    ensures Sane(Started(sel, now)) && !Owning(Started(sel, now), now) && Started(sel, now).guard.grant.Sized()
  {}

  lemma StartStep(s: Sys, step: Step, ttl: nat)
    requires Inv(s) && Enabled(s, step) && step.Start?
    ensures Inv(Next(s, step, ttl))
  {
    hide Identity, NamesOwner, Handle, Owning;
    var t := Next(s, step, ttl);
    StartedSane(step.proc.state.sel, s.now + step.proc.offset);
    hide Sane;
    forall x | x in t.procs ensures ProcInv(t, x) {
      if x in s.procs {
        assert ProcInv(s, x);
      }
    }
    forall m | m in t.mail ensures MailInv(t, m) {
      assert MailInv(s, m);
    }
  }

  lemma DieStep(s: Sys, step: Step, ttl: nat)
    requires Inv(s) && Enabled(s, step) && step.Die?
    ensures Inv(Next(s, step, ttl))
  {
    hide Sane, Distinct, Handle, Owning;
    var t := Next(s, step, ttl);
    forall x | x in t.procs ensures ProcInv(t, x) {
      assert ProcInv(s, x);
    }
    forall m | m in t.mail ensures MailInv(t, m) {
      assert MailInv(s, m);
    }
    forall x, y | x in t.procs && y in t.procs && x != y ensures Distinct(t.procs[x], t.procs[y]) {
      assert Distinct(s.procs[x], s.procs[y]);
      DistinctFrame(s.procs[x], s.procs[y], t.procs[x], t.procs[y]);
    }
  }

  /** Identities and pairs are constant; only they decide whether two processes are distinct. */
  lemma DistinctFrame(p: Proc, q: Proc, p1: Proc, q1: Proc)
    requires Distinct(p, q) && p1.pair == p.pair && q1.pair == q.pair
    requires p1.state.sel == p.state.sel && q1.state.sel == q.state.sel
    ensures Distinct(p1, q1)
  {}

  lemma AnswerStep(s: Sys, step: Step, ttl: nat)
    requires Inv(s) && Enabled(s, step) && step.Answer?
    ensures Inv(Next(s, step, ttl))
  {
    hide Sane, Distinct, Handle, Owning;
    var t := Next(s, step, ttl);
    forall x | x in t.procs ensures ProcInv(t, x) {
      assert ProcInv(s, x);
    }
    forall m | m in t.mail ensures MailInv(t, m) {
      if m in s.mail {
        assert MailInv(s, m);
      } else {
        assert ProcInv(s, m.to);
        if Deliverable(t, m) {
          OwningInstalls(s.procs[m.to].state, Favoured(m, Local(s, m.to)));
          assert NamesOwner(s.procs[m.to], m.frame);
        }
      }
    }
  }

  /** Some process is the owner, or some mail would make one the owner now. */
  ghost predicate Threat(s: Sys)
    requires Shaped(s)
  {
    || (exists x :: x in s.procs && Holds(s, x))
    || (exists m :: m in s.mail && Deliverable(s, m))
  }

  /** Another owner is named at once. */
  function Replaced(s: Sys, y: Pid): Sys {
    s.(owner := y, owned := true, leaseEnd := s.now)
  }

  /** Where nothing threatens, naming an owner keeps everything. */
  lemma ReplacedKeeps(s: Sys, y: Pid)
    requires Inv(s) && !Threat(s)
    ensures Inv(Replaced(s, y))
  {
    hide Sane, Distinct, Handle, Owning;
    var t := Replaced(s, y);
    forall x | x in t.procs ensures ProcInv(t, x) {
      assert ProcInv(s, x) && !Holds(s, x);
    }
    forall m | m in t.mail ensures MailInv(t, m) {
      assert MailInv(s, m) && !Deliverable(s, m);
    }
  }

  /** The assumed rule waits until nothing threatens. */
  lemma RuleNoThreat(s: Sys, x: Pid)
    requires Inv(s) && Enabled(s, Appoint(x))
    ensures !Threat(s)
  {
    hide Sane, Distinct, Handle;
    forall y | y in s.procs ensures !Holds(s, y) {
      assert ProcInv(s, y);
    }
    forall m | m in s.mail ensures !Deliverable(s, m) {
      assert MailInv(s, m) && ProcInv(s, m.to);
      if Deliverable(s, m) {
        OwningInstalls(s.procs[m.to].state, Favoured(m, Local(s, m.to)));
      }
    }
  }

  /** When a new owner is named by the rule no installed grant and no mail can still make anyone the owner. */
  lemma AppointStep(s: Sys, step: Step, ttl: nat)
    requires Inv(s) && Enabled(s, step) && step.Appoint?
    ensures Inv(Next(s, step, ttl))
  {
    RuleNoThreat(s, step.x);
    ReplacedKeeps(s, step.x);
  }

  lemma KeepEffect(p: Preload, t: Tail, ttl: nat)
    requires p.guard.grant.Sized() && Sane(p)
    ensures var q := Keep(p, t.now, t.later, t.up, t.sendable, ttl);
            && q.guard.grant == p.guard.grant && q.guard.deadline == p.guard.deadline && q.sel == p.sel
            && q.guard.armed == p.guard.armed && q.guard.context == p.guard.context
            && (p.guard.revoked ==> q.guard.revoked)
            && ((q.nonce == p.nonce && q.sent == p.sent) || (q.nonce == p.nonce + 1 && q.sent == t.now))
            && (q == p || q.fenced || q.nonce > p.nonce)
  {}

  /** Mail for an older request cannot make this state the owner. */
  lemma StaleMail(p: Preload, m: Mail, now: nat)
    requires p.guard.grant.Sized() && m.frame.Sized() && Sane(p) && m.frame.nonce < p.nonce
    ensures !Owning(Handle(p, Favoured(m, now)), now)
  {
    FencedOwnsNot(p, now);
  }

  lemma DeafMail(p: Preload, m: Mail, now: nat)
    requires p.guard.grant.Sized() && m.frame.Sized() && Deaf(p)
    ensures !Owning(Handle(p, Favoured(m, now)), now)
  {
    assert Favoured(m, now).event.Sized();
  }

  /** One process moves on: the others are not touched, and no mail can make it the owner unless it stays as it is. */
  lemma ProcessMoves(s: Sys, x: Pid, q: Preload)
    requires Inv(s) && x in s.procs && ProcInv(WithState(s, x, q), x) && q.guard.grant.Sized() && Sane(q)
    requires var p := s.procs[x].state;
             q.sel == p.sel && q.nonce >= p.nonce && (q == p || Deaf(q) || q.nonce > p.nonce)
    ensures Inv(WithState(s, x, q))
  {
    hide Sane, Distinct, Handle, Owning;
    var t := WithState(s, x, q);
    assert Shaped(t);
    forall y | y in t.procs ensures ProcInv(t, y) {
      assert ProcInv(s, y);
    }
    forall m | m in t.mail ensures MailInv(t, m) {
      assert MailInv(s, m);
      if m.to == x && q != s.procs[x].state && Deliverable(t, m) {
        if q.nonce > s.procs[x].state.nonce {
          StaleMail(q, m, Local(t, x));
        } else {
          DeafMail(q, m, Local(t, x));
        }
      }
    }
    forall y, z | y in t.procs && z in t.procs && y != z ensures Distinct(t.procs[y], t.procs[z]) {
      assert Distinct(s.procs[y], s.procs[z]);
      DistinctFrame(s.procs[y], s.procs[z], t.procs[y], t.procs[z]);
    }
  }

  lemma KeptProc(s: Sys, x: Pid, q: Preload)
    requires x in s.procs && ProcInv(s, x) && q.guard.grant.Sized() && Sane(q)
    requires var p := s.procs[x].state;
             && q.sel == p.sel && q.guard.grant == p.guard.grant && q.guard.deadline == p.guard.deadline
             && (q.guard.armed ==> p.guard.armed && q.guard.context == p.guard.context)
             && (p.guard.revoked ==> q.guard.revoked) && q.sent <= Local(s, x)
    ensures ProcInv(WithState(s, x, q), x)
  {
    hide Sane;
  }

  lemma UpkeepStep(s: Sys, step: Step, ttl: nat)
    requires Inv(s) && Enabled(s, step) && step.Upkeep?
    ensures Inv(Next(s, step, ttl))
  {
    var x := step.x;
    var p := s.procs[x].state;
    assert ProcInv(s, x);
    hide Keep, Sane, Distinct, Handle, Owning, Deaf;
    var tail := Tail(Local(s, x), Local(s, x), step.up, step.sendable);
    KeepEffect(p, tail, ttl);
    KeepSane(p, tail, ttl);
    var q := if p.fenced then p else Keep(p, Local(s, x), Local(s, x), step.up, step.sendable, ttl);
    KeptProc(s, x, q);
    if q.fenced {
      DeafWhen(q);
    }
    ProcessMoves(s, x, q);
    AsksGrow(WithState(s, x, q), x);
  }

  lemma AsksGrow(s: Sys, x: Pid)
    requires Inv(s) && x in s.procs
    ensures Inv(s.(asks := s.asks + {Ask(x, s.procs[x].state.nonce)}))
  {
    hide Sane, Distinct, Identity, Handle, Owning;
    var t := s.(asks := s.asks + {Ask(x, s.procs[x].state.nonce)});
    forall y | y in t.procs ensures ProcInv(t, y) {
      assert ProcInv(s, y);
    }
    forall m | m in t.mail ensures MailInv(t, m) {
      assert MailInv(s, m);
    }
  }

  /** What handling one packet can change: nothing, a fence, or exactly one installed grant under the current nonce. */
  lemma HandleEffect(p: Preload, e: Polled)
    requires p.guard.grant.Sized() && e.event.Sized() && Sane(p)
    ensures var q := Handle(p, e);
            && q.nonce == p.nonce && q.sent == p.sent && q.sel == p.sel && (p.guard.revoked ==> q.guard.revoked)
            && ((q.guard.grant == p.guard.grant && q.guard.deadline == p.guard.deadline)
                || (e.event.GrantPacket? && !OutOfScope(p, e.event.role, e.event.frame)
                    && q.guard.grant == NativeGrant(p, e.event.frame)
                    && q.guard.deadline == p.sent + e.event.frame.ttl))
            && (q.guard.armed && !p.guard.armed ==>
                  e.event.GrantPacket? && q.guard.context == NativeGrant(p, e.event.frame).context
                  && !OutOfScope(p, e.event.role, e.event.frame))
            && (p.guard.armed ==> q.guard.armed && q.guard.context == p.guard.context)
            && (!e.event.Connected? ==> q.fenced || !q.pending)
  {
    FenceSane(p);
  }

  /** A grant passes the scope check of one process only. */
  lemma AddressedTo(s: Sys, x: Pid, m: Mail)
    requires Inv(s) && x in s.procs && m in s.mail && !OutOfScope(s.procs[x].state, m.role, m.frame)
    ensures m.to == x
  {
    hide Sane, Handle, Owning;
    assert MailInv(s, m);
    assert m.to == x || Distinct(s.procs[m.to], s.procs[x]);
  }

  lemma DeliveredHolds(s: Sys, x: Pid, m: Mail, up: bool, bindable: bool)
    requires Inv(s) && x in s.procs && s.procs[x].alive && m in s.mail
    ensures m.frame.Sized() && s.procs[x].state.guard.grant.Sized()
    ensures var q := Handle(s.procs[x].state, Polled(GrantPacket(m.role, m.frame), Local(s, x), up, bindable));
            ProcInv(WithState(s, x, q), x)
  {
    var p := s.procs[x].state;
    assert ProcInv(s, x) && MailInv(s, m);
    var e := Polled(GrantPacket(m.role, m.frame), Local(s, x), up, bindable);
    var q := Handle(p, e);
    HandleSane(p, e);
    HandleEffect(p, e);
    if !OutOfScope(p, m.role, m.frame) {
      AddressedTo(s, x, m);
    }
    hide Handle, Sane, OutOfScope;
    if Owning(q, Local(s, x)) {
      OwningInstalls(p, e);
      assert Deliverable(s, m);
    }
  }

  lemma DeliverStep(s: Sys, step: Step, ttl: nat)
    requires Inv(s) && Enabled(s, step) && step.Deliver?
    ensures Inv(Next(s, step, ttl))
  {
    hide Handle, Sane, Distinct, ProcInv, OutOfScope, NativeGrant, Owning, Deaf;
    var x, m := step.x, step.m;
    DeliveredHolds(s, x, m, step.up, step.bindable);
    SaneProc(s, x);
    var e := Polled(GrantPacket(m.role, m.frame), Local(s, x), step.up, step.bindable);
    HandleEffect(s.procs[x].state, e);
    HandleSane(s.procs[x].state, e);
    DeafWhen(Handle(s.procs[x].state, e));
    ProcessMoves(s, x, Handle(s.procs[x].state, e));
  }

  lemma SaneProc(s: Sys, x: Pid)
    requires x in s.procs && ProcInv(s, x)
    ensures Sane(s.procs[x].state)
  {}

  lemma DisturbStep(s: Sys, step: Step, ttl: nat)
    requires Inv(s) && Enabled(s, step) && step.Disturb?
    ensures Inv(Next(s, step, ttl))
  {
    var x := step.x;
    assert ProcInv(s, x);
    hide Handle, Sane, Distinct, OutOfScope, NativeGrant, Owning, Deaf;
    var e := Polled(Other, Local(s, x), false, false);
    HandleEffect(s.procs[x].state, e);
    HandleSane(s.procs[x].state, e);
    KeptProc(s, x, Handle(s.procs[x].state, e));
    DeafWhen(Handle(s.procs[x].state, e));
    ProcessMoves(s, x, Handle(s.procs[x].state, e));
  }

  lemma StepKeepsInv(s: Sys, step: Step, ttl: nat)
    requires Inv(s) && Enabled(s, step)
    ensures Inv(Next(s, step, ttl))
  {
    hide Inv, Handle, Keep;
    match step
    case Answer(_, _, _) => AnswerStep(s, step, ttl);
    case Appoint(_) => AppointStep(s, step, ttl);
    case Upkeep(_, _, _) => UpkeepStep(s, step, ttl);
    case Deliver(_, _, _, _) => DeliverStep(s, step, ttl);
    case Disturb(_) => DisturbStep(s, step, ttl);
    case Tick(d) => TickStep(s, d);
    case Start(_, _) => StartStep(s, step, ttl);
    case Die(_) => DieStep(s, step, ttl);
  }

  // ---- Runs ----

  ghost predicate Stepped(s: Sys, t: Sys, ttl: nat) {
    Shaped(s) && exists step :: Enabled(s, step) && t == Next(s, step, ttl)
  }

  /** Every state of this sequence follows from the one before by a step of the rule. */
  ghost predicate Continues(run: seq<Sys>, ttl: nat) {
    run != [] && forall i :: 0 <= i < |run| - 1 ==> Stepped(run[i], run[i + 1], ttl)
  }

  ghost predicate IsRun(run: seq<Sys>, ttl: nat) {
    Continues(run, ttl) && run[0] == EMPTY
  }

  lemma {:induction false} RunInv(run: seq<Sys>, ttl: nat, i: nat)
    requires Continues(run, ttl) && Inv(run[0]) && i < |run|
    ensures Inv(run[i])
  {
    hide Inv, Next, Enabled;
    if i > 0 {
      RunInv(run, ttl, i - 1);
      assert Stepped(run[i - 1], run[i - 1 + 1], ttl);
      var step :| Enabled(run[i - 1], step) && run[i] == Next(run[i - 1], step, ttl);
      StepKeepsInv(run[i - 1], step, ttl);
    }
  }

  lemma ReachableInv(run: seq<Sys>, ttl: nat, i: nat)
    requires IsRun(run, ttl) && i < |run|
    ensures Inv(run[i])
  {
    RunInv(run, ttl, i);
  }

  /** Let through as the owner as long as the process sees its transport live, which is all a process knows of it. */
  predicate OwnerNow(s: Sys, x: Pid)
    requires x in s.procs
  {
    s.procs[x].alive && PermitAt(s.procs[x].state.guard, Local(s, x), true) == Owner
  }

  /** Being let through is holding an owner grant. */
  lemma OwnerHolds(s: Sys, x: Pid)
    requires Inv(s) && x in s.procs
    ensures OwnerNow(s, x) <==> Holds(s, x)
  {
    assert ProcInv(s, x);
  }

  lemma OneOwnerNow(s: Sys, x: Pid, y: Pid)
    requires Inv(s) && x in s.procs && y in s.procs && OwnerNow(s, x) && OwnerNow(s, y)
    ensures x == y
  {
    OwnerHolds(s, x);
    OwnerHolds(s, y);
    hide OwnerNow, Holds, Sane;
    assert ProcInv(s, x) && ProcInv(s, y);
  }

  /** In every reachable state at most one live process is let through as the owner. */
  lemma MutualExclusion(run: seq<Sys>, ttl: nat, i: nat, x: Pid, y: Pid)
    requires IsRun(run, ttl) && i < |run|
    requires x in run[i].procs && y in run[i].procs
    requires OwnerNow(run[i], x) && OwnerNow(run[i], y)
    ensures x == y
  {
    ReachableInv(run, ttl, i);
    OneOwnerNow(run[i], x, y);
  }

  /** The coordinator's record covers the owner: it holds the lease, and its remaining time is within the record. */
  lemma OwnerIsRecorded(run: seq<Sys>, ttl: nat, i: nat, x: Pid)
    requires IsRun(run, ttl) && i < |run| && x in run[i].procs && OwnerNow(run[i], x)
    ensures run[i].owned && run[i].owner == x && run[i].now < run[i].leaseEnd
  {
    ReachableInv(run, ttl, i);
    OwnerHolds(run[i], x);
    assert ProcInv(run[i], x);
  }

  const SOLE := Selected(AUTHORITY, [1, 1, 1, 1], 1, 0, 7, 100, 200)
  const SOLE_OWNER := Lease(3, 7)

  function SoleFrame(): Frame {
    Frame(1, [1, 1, 1, 1], 100, 200, 1, 0, 5, 6, 1, 3, 7, 6000, ALL_PRODUCERS,
          [SOLE_OWNER, SOLE_OWNER, SOLE_OWNER, SOLE_OWNER])
  }

  function SoleProc(): Proc {
    Proc(true, 40, SOLE_OWNER, Started(SOLE, 40))
  }

  const SOLE_STARTED := Sys(0, map[9 := SoleProc()], {Ask(9, 1)}, {}, 9, true, 0)
  const SOLE_MAIL := Mail(9, AUTHORITY, SoleFrame(), 0)

  lemma RunExtends(run: seq<Sys>, step: Step, ttl: nat)
    requires Continues(run, ttl) && Shaped(run[|run| - 1]) && Enabled(run[|run| - 1], step)
    ensures Continues(run + [Next(run[|run| - 1], step, ttl)], ttl)
  {
    var s := run[|run| - 1];
    var t := Next(s, step, ttl);
    assert Stepped(s, t, ttl);
    hide Stepped, Next;
    var longer := run + [t];
    forall i | 0 <= i < |longer| - 1 ensures Stepped(longer[i], longer[i + 1], ttl) {
      if i < |run| - 1 {
        assert longer[i] == run[i] && longer[i + 1] == run[i + 1];
      }
    }
  }

  lemma SoleAnswered(ttl: nat)
    ensures Enabled(SOLE_STARTED, Answer(Ask(9, 1), AUTHORITY, SoleFrame()))
    ensures Next(SOLE_STARTED, Answer(Ask(9, 1), AUTHORITY, SoleFrame()), ttl)
         == SOLE_STARTED.(mail := {SOLE_MAIL}, leaseEnd := 6000)
  {}

  lemma SoleDelivered(s: Sys, ttl: nat)
    requires s == SOLE_STARTED.(mail := {SOLE_MAIL}, leaseEnd := 6000)
    ensures Shaped(s) && Enabled(s, Deliver(9, SOLE_MAIL, true, true))
    ensures OwnerNow(Next(s, Deliver(9, SOLE_MAIL, true, true), ttl), 9)
  {
    var q := Handle(s.procs[9].state, Polled(GrantPacket(AUTHORITY, SoleFrame()), 40, true, true));
    assert q.guard.grant == NativeGrant(s.procs[9].state, SoleFrame());
  }

  /** The rule of the coordinator does let a process become the owner: start, appoint, answer, deliver. */
  lemma OwnerReachable(ttl: nat) returns (run: seq<Sys>)
    ensures IsRun(run, ttl) && run[|run| - 1].procs.Keys == {9} && OwnerNow(run[|run| - 1], 9)
  {
    var s1 := Next(EMPTY, Start(9, SoleProc()), ttl);
    RunExtends([EMPTY], Start(9, SoleProc()), ttl);
    RunExtends([EMPTY] + [s1], Appoint(9), ttl);
    var s2 := Next(s1, Appoint(9), ttl);
    assert s2 == SOLE_STARTED;
    SoleAnswered(ttl);
    hide Next, Enabled, OwnerNow;
    RunExtends([EMPTY] + [s1] + [s2], Answer(Ask(9, 1), AUTHORITY, SoleFrame()), ttl);
    var s3 := Next(s2, Answer(Ask(9, 1), AUTHORITY, SoleFrame()), ttl);
    SoleDelivered(s3, ttl);
    RunExtends([EMPTY] + [s1] + [s2] + [s3], Deliver(9, SOLE_MAIL, true, true), ttl);
    run := [EMPTY] + [s1] + [s2] + [s3] + [Next(s3, Deliver(9, SOLE_MAIL, true, true), ttl)];
  }

  // ---- Naming another owner without waiting ----

  /** From this state on, whatever steps of the rule follow, two processes are never both let through. */
  ghost predicate SafeFrom(s: Sys, ttl: nat) {
    forall run: seq<Sys> :: Continues(run, ttl) && run[0] == s ==> SafeAlong(run)
  }

  ghost predicate SafeAlong(run: seq<Sys>) {
    forall i, x, y :: 0 <= i < |run| && x in run[i].procs && y in run[i].procs ==>
      OwnerNow(run[i], x) && OwnerNow(run[i], y) ==> x == y
  }

  lemma InvSafe(s: Sys, ttl: nat)
    requires Inv(s)
    ensures SafeFrom(s, ttl)
  {
    hide OwnerNow, Inv;
    forall run: seq<Sys> | Continues(run, ttl) && run[0] == s ensures SafeAlong(run) {
      forall i, x, y | 0 <= i < |run| && x in run[i].procs && y in run[i].procs
        ensures OwnerNow(run[i], x) && OwnerNow(run[i], y) ==> x == y
      {
        RunInv(run, ttl, i);
        if OwnerNow(run[i], x) && OwnerNow(run[i], y) {
          OneOwnerNow(run[i], x, y);
        }
      }
    }
  }

  /** A number above every process number and every worker in use. */
  lemma {:induction false} Unused(procs: map<Pid, Proc>) returns (n: nat)
    ensures n > 0 && forall x :: x in procs ==> procs[x].state.sel.pid < n && procs[x].pair.worker < n
    decreases |procs|
  {
    if procs == map[] {
      n := 1;
    } else {
      var x :| x in procs;
      var rest := procs - {x};
      assert rest.Keys == procs.Keys - {x};
      var below := Unused(rest);
      var p := procs[x];
      n := below + p.state.sel.pid + p.pair.worker + 1;
      forall y | y in procs ensures procs[y].state.sel.pid < n && procs[y].pair.worker < n {
        assert y == x || (y in rest && rest[y] == procs[y]);
      }
    }
  }

  function NewSelected(n: nat): Selected {
    Selected(AUTHORITY, [1, 1, 1, 1], 1, 0, 1, n, 1)
  }

  function NewProc(n: nat, now: nat): Proc {
    Proc(true, 0, Lease(n, 1), Started(NewSelected(n), now))
  }

  function NewFrame(n: nat): Frame {
    Frame(1, [1, 1, 1, 1], n, 1, 1, 0, 5, 6, 1, n, 1, 1, ALL_PRODUCERS,
          [Lease(n, 1), Lease(n, 1), Lease(n, 1), Lease(n, 1)])
  }

  /** A new process asks, is answered as the owner, and is let through, all at one time. */
  lemma NewcomerOwns(n: nat, now: nat)
    requires 0 < n && now < U64_MAX
    ensures NewFrame(n).Sized() && Started(NewSelected(n), now).guard.grant.Sized()
    ensures var q := Handle(Started(NewSelected(n), now), Polled(GrantPacket(AUTHORITY, NewFrame(n)), now, true, true));
            PermitAt(q.guard, now, true) == Owner
  {
    var p := Started(NewSelected(n), now);
    var g := NativeGrant(p, NewFrame(n));
    assert ValidContext(g.context);
    assert Installable(Arm(p.guard, g.context), g, now, true);
  }

  /** The steps that let the newcomer through beside whoever is let through already. */
  lemma NewcomerSteps(s: Sys, x: Pid, y: Pid, n: nat, ttl: nat) returns (s1: Sys, s2: Sys, s3: Sys, m: Mail)
    requires Shaped(s) && s.owned && s.owner == y && y !in s.procs && x in s.procs && OwnerNow(s, x) && s.now < U64_MAX
    requires n > 0 && forall z :: z in s.procs ==> s.procs[z].state.sel.pid < n && s.procs[z].pair.worker < n
    ensures Enabled(s, Start(y, NewProc(n, s.now))) && s1 == Next(s, Start(y, NewProc(n, s.now)), ttl)
    ensures Shaped(s1) && Enabled(s1, Answer(Ask(y, 1), AUTHORITY, NewFrame(n)))
    ensures s2 == Next(s1, Answer(Ask(y, 1), AUTHORITY, NewFrame(n)), ttl)
    ensures Shaped(s2) && Enabled(s2, Deliver(y, m, true, true)) && s3 == Next(s2, Deliver(y, m, true, true), ttl)
    ensures x in s3.procs && y in s3.procs && OwnerNow(s3, x) && OwnerNow(s3, y) && x != y
  {
    var p, f, ask := NewProc(n, s.now), NewFrame(n), Ask(y, 1);
    NewcomerOwns(n, s.now);
    hide Handle, PermitAt;
    s1 := s.(procs := s.procs[y := p], asks := s.asks + {ask});
    m := Mail(y, AUTHORITY, f, s.now);
    s2 := Next(s1, Answer(ask, AUTHORITY, f), ttl);
    assert s2.procs == s1.procs && s2.mail == s1.mail + {m} && s2.now == s.now;
    s3 := Next(s2, Deliver(y, m, true, true), ttl);
  }

  lemma NewcomerJoins(run: seq<Sys>, x: Pid, y: Pid, ttl: nat) returns (longer: seq<Sys>)
    requires Continues(run, ttl)
    requires var s := run[|run| - 1];
             && Shaped(s) && s.owned && s.owner == y && y !in s.procs && x in s.procs && OwnerNow(s, x)
             && s.now < U64_MAX
    ensures Continues(longer, ttl) && longer[0] == run[0] && !SafeAlong(longer)
  {
    var s := run[|run| - 1];
    var n := Unused(s.procs);
    var s1, s2, s3, m := NewcomerSteps(s, x, y, n, ttl);
    hide Shaped, Enabled, Next, OwnerNow;
    RunExtends(run, Start(y, NewProc(n, s.now)), ttl);
    RunExtends(run + [s1], Answer(Ask(y, 1), AUTHORITY, NewFrame(n)), ttl);
    RunExtends(run + [s1] + [s2], Deliver(y, m, true, true), ttl);
    longer := run + [s1] + [s2] + [s3];
    assert longer[|run| + 2] == s3;
  }

  /**
    Naming a newcomer at once, as replace_disconnected_location does in src/network/coordinator.cpp, keeps mutual
    exclusion in every continuation exactly when no process is the owner and no mail would make one the owner at that
    time.
  */
  lemma ReplacementSafe(s: Sys, y: Pid, ttl: nat)
    requires Inv(s) && y !in s.procs
    ensures SafeFrom(Replaced(s, y), ttl) <==> !Threat(s)
  {
    if !Threat(s) {
      ReplacedKeeps(s, y);
      InvSafe(Replaced(s, y), ttl);
    } else {
      var bad := ThreatenedRun(s, y, ttl);
    }
  }

  lemma ThreatenedRun(s: Sys, y: Pid, ttl: nat) returns (bad: seq<Sys>)
    requires Inv(s) && y !in s.procs && Threat(s)
    ensures Continues(bad, ttl) && bad[0] == Replaced(s, y) && !SafeAlong(bad)
  {
    assert Shaped(s);
    hide Inv, Holds, Deliverable, Continues, SafeAlong, Shaped;
    if x :| x in s.procs && Holds(s, x) {
      bad := FromHolder(s, x, y, ttl);
    } else {
      var m :| m in s.mail && Deliverable(s, m);
      bad := FromMail(s, m, y, ttl);
    }
  }

  lemma FromHolder(s: Sys, x: Pid, y: Pid, ttl: nat) returns (bad: seq<Sys>)
    requires Inv(s) && y !in s.procs && x in s.procs && Holds(s, x)
    ensures Continues(bad, ttl) && bad[0] == Replaced(s, y) && !SafeAlong(bad)
  {
    OwnerHolds(s, x);
    HolderInTime(s, x);
    var t := Replaced(s, y);
    SameOwner(s, t, x);
    assert Shaped(t);
    hide Inv, OwnerNow, Holds, Shaped;
    bad := NewcomerJoins([t], x, y, ttl);
  }

  lemma FromMail(s: Sys, m: Mail, y: Pid, ttl: nat) returns (bad: seq<Sys>)
    requires Inv(s) && y !in s.procs && m in s.mail && Deliverable(s, m)
    ensures Continues(bad, ttl) && bad[0] == Replaced(s, y) && !SafeAlong(bad)
  {
    DeliveredOwns(s, m);
    var t, x := Replaced(s, y), m.to;
    hide Inv, OwnerNow, Handle, Owning;
    var step := Deliver(x, m, true, true);
    assert Shaped(t) && Enabled(t, step);
    var u := Next(t, step, ttl);
    var q := Handle(s.procs[x].state, Favoured(m, Local(s, x)));
    assert u == WithState(t, x, q);
    SameOwner(WithState(s, x, q), u, x);
    assert Shaped(u) && u.owner == y && u.owned && u.now == s.now && u.procs.Keys == s.procs.Keys;
    hide Next, Enabled, Shaped;
    RunExtends([t], step, ttl);
    bad := NewcomerJoins([t] + [u], x, y, ttl);
  }

  lemma SameOwner(s: Sys, t: Sys, x: Pid)
    requires x in s.procs && t.procs == s.procs && t.now == s.now
    ensures OwnerNow(t, x) == OwnerNow(s, x)
  {}

  lemma HolderInTime(s: Sys, x: Pid)
    requires Inv(s) && x in s.procs && Holds(s, x)
    ensures s.now < U64_MAX
  {
    assert ProcInv(s, x);
  }

  lemma DeliveredOwns(s: Sys, m: Mail)
    requires Inv(s) && m in s.mail && Deliverable(s, m)
    ensures s.procs[m.to].state.guard.grant.Sized() && m.frame.Sized()
    ensures var q := Handle(s.procs[m.to].state, Favoured(m, Local(s, m.to)));
            OwnerNow(WithState(s, m.to, q), m.to) && s.now < U64_MAX
  {
    assert MailInv(s, m) && ProcInv(s, m.to);
    var p := s.procs[m.to].state;
    OwningInstalls(p, Favoured(m, Local(s, m.to)));
    HandleSane(p, Favoured(m, Local(s, m.to)));
    hide Handle;
  }

  /**
    What src/network/coordinator.h:118-119 asks of the host before a replacement: the old worker's process has exited.
    Neither replace_disconnected_location nor the caller that reads a request file asks the process again.
  */
  predicate ExitVerified(s: Sys) {
    s.owned ==> s.owner in s.procs && !s.procs[s.owner].alive
  }

  /**
    Naming a newcomer at once is safe in every continuation where the rule allows it: after the exit that the host is to
    verify, or after the recorded lease has run out.
  */
  lemma ReplacementByRule(s: Sys, y: Pid, ttl: nat)
    requires Inv(s) && y !in s.procs && (ExitVerified(s) || s.leaseEnd <= s.now)
    ensures SafeFrom(Replaced(s, y), ttl)
  {
    RuleNoThreat(s, y);
    ReplacementSafe(s, y, ttl);
  }

  /** It is safe as well once the old process itself is fenced, as it is when it polls the end of its connection. */
  lemma ReplacementAfterFence(s: Sys, y: Pid, ttl: nat)
    requires Inv(s) && y !in s.procs && s.owned && s.owner in s.procs && s.procs[s.owner].state.fenced
    ensures SafeFrom(Replaced(s, y), ttl)
  {
    FencedNoThreat(s);
    ReplacementSafe(s, y, ttl);
  }

  lemma FencedNoThreat(s: Sys)
    requires Inv(s) && s.owned && s.owner in s.procs && s.procs[s.owner].state.fenced
    ensures !Threat(s)
  {
    assert ProcInv(s, s.owner);
    var p := s.procs[s.owner].state;
    DeafWhen(p);
    FencedNotOwning(p, Local(s, s.owner));
    hide Sane, Distinct, Handle, Owning;
    forall x | x in s.procs ensures !Holds(s, x) {
      assert ProcInv(s, x);
    }
    forall m | m in s.mail ensures !Deliverable(s, m) {
      assert MailInv(s, m);
      if m.to == s.owner {
        assert Favoured(m, Local(s, m.to)).event.Sized();
      }
    }
  }

  lemma FencedNotOwning(p: Preload, now: nat)
    requires p.guard.grant.Sized() && Sane(p) && p.fenced
    ensures !Owning(p, now)
  {}

  /**
    Without the exit the replacement can fail: in a reachable state the recorded owner is alive and let through, so it
    has not yet seen its transport close, and from the state after a replacement two processes can own.
  */
  lemma ReplacementCanFail(ttl: nat) returns (run: seq<Sys>)
    ensures IsRun(run, ttl) && Inv(run[|run| - 1]) && 10 !in run[|run| - 1].procs
    ensures var s := run[|run| - 1];
            && s.owned && s.owner in s.procs && OwnerNow(s, s.owner)
            && !ExitVerified(s) && !s.procs[s.owner].state.fenced && s.now < s.leaseEnd
    ensures !SafeFrom(Replaced(run[|run| - 1], 10), ttl)
  {
    run := OwnerReachable(ttl);
    var s := run[|run| - 1];
    ReachableInv(run, ttl, |run| - 1);
    OwnerHolds(s, 9);
    OwnerIsRecorded(run, ttl, |run| - 1, 9);
    if s.procs[9].state.fenced {
      FencedNoThreat(s);
    }
    ReplacementSafe(s, 10, ttl);
  }
}
