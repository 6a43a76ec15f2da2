/**
  The lease state of one process (src/bridge/native_global_admission.h). Clock values, nonces and times are 64-bit in
  the source; here they are naturals, and Sound is kept by every operation, so no stored deadline exceeds 2^64 - 1.
*/
module GlobalAdmission {
  const U64_MAX: nat := 0xffff_ffff_ffff_ffff
  const MAX_TTL_MS: nat := 30000
  const READER: nat := 1
  const AUTHORITY: nat := 2
  const ALL_PRODUCERS: nat := 15

  /** The location components and the two 32-byte identities are numbers; zero is "not set" in the source. */
  datatype Context = Context(
    role: nat, universe: nat, checkpoint: nat, location: seq<nat>, revision: nat,
    worker: nat, generation: nat, processCreated: nat, processId: nat)

  datatype Lease = Lease(worker: nat, generation: nat)

  datatype Grant = Grant(context: Context, owners: seq<Lease>, nonce: nat, sentAt: nat, ttl: nat, mask: nat) {
    /** owners is an array of four. */
    predicate Sized() {
      |owners| == 4
    }
  }

  const NO_CONTEXT := Context(READER, 0, 0, [0, 0, 0, 0], 0, 0, 0, 0, 0)
  const NO_GRANT := Grant(NO_CONTEXT, [Lease(0, 0), Lease(0, 0), Lease(0, 0), Lease(0, 0)], 0, 0, 0, 0)

  datatype Permit = Off | Denied | Owner | ReaderPermit

  datatype Admission = Admission(armed: bool, revoked: bool, context: Context, grant: Grant, deadline: nat)

  const INITIAL := Admission(false, false, NO_CONTEXT, NO_GRANT, 0)

  predicate ValidContext(v: Context) {
    && (v.role == READER || v.role == AUTHORITY)
    && v.universe != 0 && v.checkpoint != 0 && v.revision != 0 && v.processId != 0 && v.processCreated != 0
    && (v.role == AUTHORITY ==> v.worker != 0 && v.generation != 0)
    && (v.worker == 0 <==> v.generation == 0)
    && (forall i :: 0 <= i < |v.location| ==> v.location[i] != 0)
  }

  predicate Mine(context: Context, owner: Lease) {
    context.role == AUTHORITY && owner == Lease(context.worker, context.generation)
  }

  /** A reader may follow a later generation of the same global worker. */
  predicate ReaderReplacement(a: Admission, g: Grant)
    requires a.grant.Sized() && g.Sized()
  {
    && a.grant.nonce != 0 && a.grant.mask == 0 && g.mask == 0
    && a.grant.owners[0].worker == g.owners[0].worker
    && a.grant.owners[0].generation < g.owners[0].generation
  }

  predicate Fresh(a: Admission, g: Grant, now: nat) {
    && g.nonce != 0 && a.grant.nonce < g.nonce
    && 0 < g.ttl <= MAX_TTL_MS
    && g.sentAt <= now < g.sentAt + g.ttl <= U64_MAX
  }

  predicate Continues(a: Admission, g: Grant, now: nat)
    requires a.grant.Sized() && g.Sized()
  {
    a.grant.nonce != 0 ==> now < a.deadline && (a.grant.owners[0] == g.owners[0] || ReaderReplacement(a, g))
  }

  predicate OneOwner(g: Grant)
    requires g.Sized()
  {
    && g.owners[0].worker != 0 && g.owners[0].generation != 0
    && forall i :: 0 <= i < 4 ==> g.owners[i] == g.owners[0]
  }

  /** The producers go to exactly the process the grant names; another generation of its worker gets nothing. */
  predicate RightMask(a: Admission, g: Grant)
    requires g.Sized()
  {
    var mine := Mine(a.context, g.owners[0]);
    && (a.context.role == AUTHORITY && g.owners[0].worker == a.context.worker ==> mine)
    && g.mask == if mine then ALL_PRODUCERS else 0
  }

  predicate Installable(a: Admission, g: Grant, now: nat, live: bool)
    requires a.grant.Sized() && g.Sized()
  {
    && a.armed && !a.revoked && live && a.context == g.context
    && Fresh(a, g, now) && Continues(a, g, now) && OneOwner(g) && RightMask(a, g)
  }

  function Arm(a: Admission, v: Context): Admission {
    if a.armed || !ValidContext(v) then a else a.(context := v, armed := true)
  }

  function Install(a: Admission, g: Grant, now: nat, live: bool): (b: Admission)
    requires a.grant.Sized() && g.Sized()
    ensures b.grant.Sized()
  {
    if Installable(a, g, now, live) then a.(grant := g, deadline := g.sentAt + g.ttl) else a
  }

  function Revoke(a: Admission): Admission {
    if a.armed then a.(revoked := true) else a
  }

  function PermitAt(a: Admission, now: nat, live: bool): Permit {
    if !a.armed then Off
    else if a.revoked || !live || a.grant.nonce == 0 || now < a.grant.sentAt || now >= a.deadline then Denied
    else if a.grant.mask == ALL_PRODUCERS then Owner
    else ReaderPermit
  }

  class NativeGlobalAdmission {
    var armed: bool
    var revoked: bool
    var context: Context
    var grant: Grant
    var deadline: nat

    function State(): Admission
      reads this
    {
      Admission(armed, revoked, context, grant, deadline)
    }

    constructor ()
      ensures State() == INITIAL
    {
      armed, revoked := false, false;
      context, grant, deadline := NO_CONTEXT, NO_GRANT, 0;
    }

    static method Valid(v: Context) returns (ok: bool)
      ensures ok == ValidContext(v)
    {
      if (v.role != READER && v.role != AUTHORITY) || v.universe == 0 || v.checkpoint == 0 || v.revision == 0 ||
         v.processId == 0 || v.processCreated == 0 ||
         (v.role == AUTHORITY && (v.worker == 0 || v.generation == 0)) || (v.worker == 0) != (v.generation == 0) {
        return false;
      }
      for i := 0 to |v.location|
        invariant forall j :: 0 <= j < i ==> v.location[j] != 0
      {
        if v.location[i] == 0 {
          return false;
        }
      }
      return true;
    }

    method ArmWith(value: Context) returns (ok: bool)
      modifies this
      ensures State() == Arm(old(State()), value)
      ensures ok ==
              (&& !old(armed) && (value.role == READER || value.role == AUTHORITY) && value.universe != 0
               && value.checkpoint != 0 && value.revision != 0 && value.processId != 0 && value.processCreated != 0
               && 0 !in value.location && (value.worker == 0 <==> value.generation == 0)
               && (value.role == AUTHORITY ==> value.worker != 0))
    {
      var valid := Valid(value);
      if armed || !valid {
        return false;
      }
      context := value;
      armed := true;
      return true;
    }

    method InstallGrant(value: Grant, now: nat, live: bool) returns (ok: bool)
      requires grant.Sized() && value.Sized()
      modifies this
      ensures State() == Install(old(State()), value, now, live)
      ensures ok == Installable(old(State()), value, now, live)
    {
      var replacement := grant.nonce != 0 && grant.mask == 0 && value.mask == 0 &&
                         grant.owners[0].worker == value.owners[0].worker &&
                         grant.owners[0].generation < value.owners[0].generation;
      if !armed || revoked || !live || context != value.context || value.nonce == 0 || value.nonce <= grant.nonce ||
         value.ttl == 0 || value.ttl > MAX_TTL_MS || value.sentAt > now || now - value.sentAt >= value.ttl ||
         value.sentAt > U64_MAX - value.ttl ||
         (grant.nonce != 0 && (now >= deadline || (grant.owners[0] != value.owners[0] && !replacement))) {
        return false;
      }
      var owner := value.owners[0];
      if owner.worker == 0 || owner.generation == 0 {
        return false;
      }
      for i := 0 to 4
        invariant forall j :: 0 <= j < i ==> value.owners[j] == owner
      {
        if value.owners[i] != owner {
          return false;
        }
      }
      var mine := context.role == AUTHORITY && owner.worker == context.worker && owner.generation == context.generation;
      if context.role == AUTHORITY && owner.worker == context.worker && !mine {
        return false;
      }
      if value.mask != if mine then 15 else 0 {
        return false;
      }
      grant := value;
      deadline := value.sentAt + value.ttl;
      return true;
    }

    method PermitNow(now: nat, live: bool) returns (p: Permit)
      ensures p == PermitAt(State(), now, live)
    {
      if !armed {
        return Off;
      }
      if revoked || !live || grant.nonce == 0 || now < grant.sentAt || now >= deadline {
        return Denied;
      }
      return if grant.mask == 15 then Owner else ReaderPermit;
    }

    method RevokeGrant()
      modifies this
      ensures State() == Revoke(old(State()))
    {
      if armed {
        revoked := true;
      }
    }
  }

  // ---- Whole runs under a non-decreasing clock ----

  datatype Op = ArmOp(v: Context) | InstallOp(g: Grant, now: nat, live: bool) | RevokeOp

  function Apply(a: Admission, op: Op): (b: Admission)
    requires a.grant.Sized() && (op.InstallOp? ==> op.g.Sized())
    ensures b.grant.Sized()
  {
    match op
    case ArmOp(v) => Arm(a, v)
    case InstallOp(g, now, live) => Install(a, g, now, live)
    case RevokeOp => Revoke(a)
  }

  /** Every installation of the run happens no earlier than `since`, and no later than any after it. */
  predicate Timed(ops: seq<Op>, since: nat) {
    ops == [] ||
    ((ops[0].InstallOp? ==> ops[0].g.Sized() && since <= ops[0].now) &&
     Timed(ops[1..], if ops[0].InstallOp? then ops[0].now else since))
  }

  function Run(a: Admission, ops: seq<Op>, since: nat): (b: Admission)
    requires a.grant.Sized() && Timed(ops, since)
    ensures b.grant.Sized()
    decreases ops
  {
    if ops == [] then a
    else Run(Apply(a, ops[0]), ops[1..], if ops[0].InstallOp? then ops[0].now else since)
  }

  function Latest(ops: seq<Op>, since: nat): (t: nat)
    requires Timed(ops, since)
    ensures since <= t
  {
    if ops == [] then since else Latest(ops[1..], if ops[0].InstallOp? then ops[0].now else since)
  }

  /** What a granted process keeps: its context, its role mask and the owner it follows. */
  predicate KeepsRole(a: Admission, b: Admission)
    requires a.grant.Sized() && b.grant.Sized()
  {
    && (a.armed ==> b.armed && b.context == a.context)
    && (a.revoked ==> b.revoked)
    && (a.grant.nonce != 0 ==>
         && b.grant.nonce >= a.grant.nonce
         && (b.grant.nonce == a.grant.nonce ==> b.grant == a.grant && b.deadline == a.deadline)
         && b.grant.mask == a.grant.mask
         && b.grant.owners[0].worker == a.grant.owners[0].worker
         && b.grant.owners[0].generation >= a.grant.owners[0].generation)
  }

  predicate Sound(a: Admission)
    requires a.grant.Sized()
  {
    && (a.grant.nonce != 0 ==> a.armed && a.grant.context == a.context && OneOwner(a.grant) && RightMask(a, a.grant))
    && (a.grant.nonce != 0 ==> a.deadline == a.grant.sentAt + a.grant.ttl && 0 < a.grant.ttl <= MAX_TTL_MS)
    && a.deadline <= U64_MAX
  }

  lemma ApplyKeepsRole(a: Admission, op: Op)
    requires a.grant.Sized() && Sound(a) && (op.InstallOp? ==> op.g.Sized())
    ensures Sound(Apply(a, op)) && KeepsRole(a, Apply(a, op))
  {}

  /** Mask, worker and context are constant, the owner generation never decreases, nonces strictly increase. */
  lemma {:induction false} RolesNeverChange(a: Admission, ops: seq<Op>, since: nat)
    requires a.grant.Sized() && Sound(a) && Timed(ops, since)
    ensures Sound(Run(a, ops, since)) && KeepsRole(a, Run(a, ops, since))
    decreases ops
  {
    if ops != [] {
      ApplyKeepsRole(a, ops[0]);
      RolesNeverChange(Apply(a, ops[0]), ops[1..], if ops[0].InstallOp? then ops[0].now else since);
    }
  }

  predicate Lapsed(a: Admission, now: nat) {
    a.armed && (a.revoked || (a.grant.nonce != 0 && now >= a.deadline))
  }

  /** Once revoked or expired, nothing done later at this or any later time gives a permit again. */
  lemma {:induction false} LapseIsPermanent(a: Admission, ops: seq<Op>, since: nat, now: nat, live: bool)
    requires a.grant.Sized() && Timed(ops, since) && Lapsed(a, since) && Latest(ops, since) <= now
    ensures PermitAt(Run(a, ops, since), now, live) == Denied
    decreases ops
  {
    if ops != [] {
      var next := if ops[0].InstallOp? then ops[0].now else since;
      assert Lapsed(Apply(a, ops[0]), next);
      LapseIsPermanent(Apply(a, ops[0]), ops[1..], next, now, live);
    }
  }

  /** A permit is exactly a live, unexpired, unrevoked grant; it is the owner's exactly when the grant names us. */
  lemma PermitMeaning(a: Admission, now: nat, live: bool)
    requires a.grant.Sized() && Sound(a)
    ensures PermitAt(a, now, live) == Owner <==>
            (a.armed && !a.revoked && live && a.grant.nonce != 0 && a.grant.sentAt <= now < a.grant.sentAt + a.grant.ttl
             && Mine(a.context, a.grant.owners[0]))
    ensures PermitAt(a, now, live) == Owner ==> now - a.grant.sentAt < MAX_TTL_MS
  {}

  /**
    A running grant is followed by a later one, in time and of the same world, exactly when that names the same owner;
    where the producers are elsewhere, also a later generation of the same worker.
  */
  lemma FollowedExactly(a: Admission, g: Grant, now: nat)
    requires a.grant.Sized() && g.Sized() && Sound(a) && a.grant.nonce != 0 && !a.revoked && now < a.deadline
    requires g.context == a.context && a.grant.nonce < g.nonce && 0 < g.ttl <= MAX_TTL_MS
    requires g.sentAt <= now < g.sentAt + g.ttl <= U64_MAX && g.mask == a.grant.mask
    requires forall i :: 0 <= i < 4 ==> g.owners[i] == g.owners[0]
    requires g.owners[0].worker != 0 && g.owners[0].generation != 0
    ensures var old_, new_ := a.grant.owners[0], g.owners[0];
            var b := Install(a, g, now, true);
            var follows := new_ == old_
                           || (a.grant.mask == 0 && new_.worker == old_.worker && old_.generation < new_.generation);
            && (follows ==> b == a.(grant := g, deadline := g.sentAt + g.ttl))
            && (!follows ==> b == a)
  {}

  /**
    In any run a process only ever holds a grant of its own world, for one owner in all four places, whose producers are
    all on exactly when the process is that owner, and with a lifetime of at most thirty seconds from its sending.
  */
  lemma GrantsAreSound(ops: seq<Op>, since: nat)
    requires Timed(ops, since)
    ensures var a := Run(INITIAL, ops, since);
            a.grant.nonce != 0 ==>
              && a.armed && a.grant.context == a.context && a.deadline == a.grant.sentAt + a.grant.ttl
              && 1 <= a.grant.ttl <= 30000 && |a.grant.owners| == 4
              && var owner := a.grant.owners[0];
                 && owner.worker != 0 && owner.generation != 0
                 && (forall i :: 0 <= i < 4 ==> a.grant.owners[i] == owner)
                 && a.grant.mask == (if a.context.role == 2 && owner.worker == a.context.worker
                                        && owner.generation == a.context.generation then 15 else 0)
                 && (a.context.role == 2 && owner.worker == a.context.worker ==>
                       owner.generation == a.context.generation)
  {
    RolesNeverChange(INITIAL, ops, since);
  }

  /** A grant is only installed where the one before still runs, is later than it, and is in force at once. */
  lemma InstalledInForce(a: Admission, g: Grant, now: nat, live: bool)
    requires a.grant.Sized() && g.Sized() && Sound(a) && Install(a, g, now, live) != a
    ensures var b := Install(a, g, now, live);
            && live && a.armed && !a.revoked && b.grant == g && a.grant.nonce < g.nonce && g.context == a.context
            && (PermitAt(b, now, true) == Owner || PermitAt(b, now, true) == ReaderPermit)
            && (a.grant.nonce != 0 ==> now < a.deadline)
  {}
}
