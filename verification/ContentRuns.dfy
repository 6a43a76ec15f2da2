/** Whole runs of the content exchange: what they never do, and what an honest coordinator makes them reach. */
module ContentRuns {
  import opened Basics
  import opened ContentSpec
  import opened Words
  import opened ContentSafety
  import opened ContentFrame

  datatype Turn = Turn(input: Input, world: World)

  function Initial(approved: Approvals): State {
    State(map[], map[], approved, map[], 0, [])
  }

  lemma InitialInv(c: Config, approved: Approvals)
    ensures Inv(c, Initial(approved))
  {}

  ghost function Run(c: Config, s: State, turns: seq<Turn>): (u: State)
    requires Inv(c, s)
    ensures Inv(c, u)
    decreases |turns|
  {
    if turns == [] then s
    else
      StepKeeps(c, s, turns[0].input, turns[0].world);
      Run(c, Step(c, s, turns[0].input, turns[0].world), turns[1..])
  }

  /** The state a process reaches from its start. */
  ghost function Reach(c: Config, approved: Approvals, turns: seq<Turn>): (s: State)
    ensures Inv(c, s)
  {
    InitialInv(c, approved);
    Run(c, Initial(approved), turns)
  }

  /** The correlation invariant, in any reachable state. */
  lemma OneRequestEach(c: Config, approved: Approvals, turns: seq<Turn>)
    ensures var s := Reach(c, approved, turns);
            && |s.jobs| <= 2 && |s.pending| <= 2
            && (forall r :: r in s.pending ==>
                  && s.pending[r].transaction in s.jobs && 1 <= r <= s.sequence
                  && Matches(s.pending[r], s.jobs[s.pending[r].transaction])
                  && forall q :: q in s.pending && s.pending[q].transaction == s.pending[r].transaction ==> q == r)
            && (forall t :: t in s.jobs ==> (Awaited(s, t) <==> !Waits(s.jobs[t])))
  {
    var s := Reach(c, approved, turns);
    hide Ready, LoadsOk, Matches, Reach;
    forall r | r in s.pending ensures PendingOk(s, r, {}) {}
    AtMostTwo(c, s);
    forall t | t in s.jobs && Awaited(s, t) ensures !Waits(s.jobs[t]) {
      var r :| r in s.pending && s.pending[r].transaction == t;
      assert PendingOk(s, r, {});
      NotWaiting(s.pending[r], s.jobs[t]);
    }
  }

  lemma NotWaiting(p: Pending, j: Job)
    requires Matches(p, j)
    ensures !Waits(j)
  {}

  lemma AtMostTwo(c: Config, s: State)
    requires Inv(c, s)
    ensures |s.pending| <= 2
  {
    hide Matches, Ready, LoadsOk, ReceiveResponse;
    if s.pending != map[] {
      var r :| r in s.pending;
      TakeAnswer(c, s, r);
      CapacityFree(c, s.(pending := s.pending - {r}), s.pending[r].transaction);
      assert |(s.pending - {r}).Keys| == |s.pending.Keys - {r}|;
    }
  }

  /**
    Whatever arrived before: content handed to the original has an approved digest and the identity its transaction
    began with; a player has moreover verified the manifest for it and found every part held.
  */
  lemma ImportsAdmitted(c: Config, approved: Approvals, turns: seq<Turn>, i: nat)
    requires var trace := Reach(c, approved, turns).trace; i < |trace| && trace[i].Loaded?
    ensures var trace := Reach(c, approved, turns).trace; LoadOk(c, trace[..i], trace[i])
  {
    hide Ready, LoadOk, Matches, Reach;
  }

  /** Whatever the coordinator answers: the observation frames sent since their last begin add up to the observation. */
  lemma ObservationSentWhole(c: Config, approved: Approvals, turns: seq<Turn>, t: nat)
    requires var s := Reach(c, approved, turns); t in s.jobs && s.jobs[t].phase == ObserveEnd
    ensures var s := Reach(c, approved, turns);
            var o := s.jobs[t].observation;
            && c.digest(o).Some?
            && (c.digest(o).value != ZERO ==>
                  Uploaded(c, s.trace, t) == Some(Upload(t, |o|, c.digest(o).value, o)))
  {
    var s := Reach(c, approved, turns);
    hide LoadsOk, Reach, Ready, PendingOk;
    EndOfObservation(c, s.trace, t, s.jobs[t]);
  }

  lemma EndOfObservation(c: Config, trace: seq<Event>, t: nat, j: Job)
    requires Ready(c, trace, t, j, true) && j.phase == ObserveEnd
    ensures c.digest(j.observation).Some?
    ensures c.digest(j.observation).value != ZERO ==>
              Uploaded(c, trace, t)
              == Some(Upload(t, |j.observation|, c.digest(j.observation).value, j.observation))
  {
    hide Uploaded, Opened;
    assert j.observation[..|j.observation|] == j.observation;
  }

  /** What a frame can come to. */
  lemma FrameCases(c: Config, s: State, f: Frame, w: World)
    requires Bounded(s)
    ensures var u := ReceiveFrame(c, s, Some(f), w);
            || u == s || u == ReceiveResponse(c, s, f, w) || u == Drop(s, {f.transaction})
            || u == BeginJob(c, s, f, w)
  {
    hide Bounded, ReceiveResponse, Drop, BeginJob;
  }

  // ---- Lost approvals ----

  /** Without approvals there is nothing under way. */
  predicate Silent(s: State) {
    s.approved == {} ==> s.jobs == map[] && s.pending == map[]
  }

  lemma SendApprovals(c: Config, s: State, t: nat, accepts: bool)
    requires Sendable(s, t)
    ensures SendOrFail(c, s, t, accepts).approved == s.approved
  {}

  lemma ApplyApprovals(c: Config, s: State, t: nat, f: Frame, p: Pending)
    requires t in s.jobs
    ensures ApplyResponse(c, s, t, f, p).state.approved == s.approved
  {
    hide Without, Verified;
  }

  lemma ResponseApprovals(c: Config, s: State, f: Frame, w: World)
    requires Inv(c, s)
    ensures Bounded(s) && ReceiveResponse(c, s, f, w).approved == s.approved
  {
    InvBounded(c, s);
    hide Inv, Bounded, SendOrFail, Without, ApplyResponse, Sendable;
    if f.request in s.pending {
      var p := s.pending[f.request];
      var t, u := p.transaction, s.(pending := s.pending - {f.request});
      if t in u.jobs && f.transaction == t && f.op == p.op {
        AppliedSendable(c, s, f);
        ApplyApprovals(c, u, t, f, p);
        var o := ApplyResponse(c, u, t, f, p);
        if o.ok {
          SendApprovals(c, o.state, t, w.accepts);
        }
      }
    }
  }

  lemma BeginSilent(c: Config, s: State, f: Frame, w: World)
    requires Inv(c, s)
    ensures Silent(BeginJob(c, s, f, w)) || BeginJob(c, s, f, w) == s
  {
    hide Inv, SendOrFail;
    var o := Refresh(s, w);
    if f.transaction != 0 && o.ok && !Refused(c, o.state, f) {
      var t, job := f.transaction, NewJob(c, f, w.clock(f.transaction));
      SendApprovals(c, Note(PutJob(o.state, t, job), Begun(t, job.expected, job.properties)), t, w.accepts);
    }
  }

  lemma WorkSilent(c: Config, s: State, w: World)
    requires Inv(c, s) && s.approved != {}
    ensures Bounded(s) && Silent(Work(c, s, w))
  {
    InvBounded(c, s);
    hide Inv, CheckJobParts, ImportJob;
    if !Idle(s) {
      var t := FirstWaiting(s);
      if s.jobs[t].phase == CheckParts {
        CheckApprovals(c, s, t, w);
      } else {
        ImportSilent(c, s, t, w);
      }
    }
  }

  lemma CheckApprovals(c: Config, s: State, t: nat, w: World)
    requires Sendable(s, t)
    ensures CheckJobParts(c, s, t, w).approved == s.approved
  {
    hide SendOrFail, Without;
    var job := s.jobs[t];
    var a := Note(PutJob(s, t, job.(phase := Fetching, missing := w.missing)), PartsReady(t, PartsOf(job)));
    SendApprovals(c, a, t, w.accepts);
    SendApprovals(c, PutJob(s, t, job.(phase := ReportDependency, missing := w.missing)), t, w.accepts);
  }

  lemma ImportSilent(c: Config, s: State, t: nat, w: World)
    requires t in s.jobs && s.jobs[t].sent == 0
    ensures Silent(ImportJob(c, s, t, w))
  {
    hide SendOrFail, Without;
    var r := Refresh(s, w);
    var d := c.digest(s.jobs[t].bytes);
    if r.ok && d.Some? && w.encoded.Some? {
      var o := LoadContent(r.state, t, d.value, s.jobs[t].bytes, w);
      var k := s.jobs[t].(observation := w.encoded.value, bytes := [], phase := ObserveBegin);
      SendApprovals(c, PutJob(o.state, t, k), t, w.accepts);
    }
  }

  lemma StepSilent(c: Config, s: State, input: Input, w: World)
    requires Inv(c, s) && Silent(s)
    ensures Bounded(s) && Silent(Step(c, s, input, w))
  {
    InvBounded(c, s);
    hide Inv, Bounded, ReceiveFrame, UpdateAll;
    match input
    case Receive(frame) => FrameSilent(c, s, frame, w);
    case Update => UpdateSilent(c, s, w);
    case Fence =>
  }

  lemma FrameSilent(c: Config, s: State, frame: Option<Frame>, w: World)
    requires Inv(c, s) && Silent(s)
    ensures Bounded(s) && Silent(ReceiveFrame(c, s, frame, w))
  {
    InvBounded(c, s);
    hide Inv, Bounded, ReceiveResponse, BeginJob, Without;
    if frame.Some? {
      ResponseApprovals(c, s, frame.value, w);
      BeginSilent(c, s, frame.value, w);
    }
  }

  lemma UpdateSilent(c: Config, s: State, w: World)
    requires Inv(c, s) && Silent(s)
    ensures Bounded(s) && Silent(UpdateAll(c, s, w))
  {
    InvBounded(c, s);
    DropKeeps(c, s, Late(s, w.clock), {});
    hide Inv, Bounded, Work, Without;
    if s.approved != {} {
      WorkSilent(c, Expire(s, w.clock), w);
    }
  }

  lemma {:induction false} RunSilent(c: Config, s: State, turns: seq<Turn>)
    requires Inv(c, s) && Silent(s)
    ensures Silent(Run(c, s, turns))
    decreases |turns|
  {
    hide Inv, Step, Silent;
    if turns != [] {
      StepKeeps(c, s, turns[0].input, turns[0].world);
      StepSilent(c, s, turns[0].input, turns[0].world);
      RunSilent(c, Step(c, s, turns[0].input, turns[0].world), turns[1..]);
    }
  }

  lemma {:induction false} RunConcat(c: Config, s: State, a: seq<Turn>, b: seq<Turn>)
    requires Inv(c, s)
    ensures Run(c, s, a + b) == Run(c, Run(c, s, a), b)
    decreases |a|
  {
    hide Inv, Step;
    if a == [] {
      assert a + b == b;
    } else {
      StepKeeps(c, s, a[0].input, a[0].world);
      assert (a + b)[0] == a[0] && (a + b)[1..] == a[1..] + b;
      RunConcat(c, Step(c, s, a[0].input, a[0].world), a[1..], b);
    }
  }

  lemma {:induction false} NothingLeft(c: Config, s: State, turns: seq<Turn>)
    requires Inv(c, s) && s.approved == {} && s.jobs == map[] && s.pending == map[]
    ensures Run(c, s, turns) == s
    decreases |turns|
  {
    if turns != [] {
      StepKeeps(c, s, turns[0].input, turns[0].world);
      assert Step(c, s, turns[0].input, turns[0].world) == s;
      NothingLeft(c, s, turns[1..]);
    }
  }

  /** Once the approvals are gone, whenever that was, nothing happens any more. */
  lemma SilentForever(c: Config, approved: Approvals, before: seq<Turn>, after: seq<Turn>)
    requires Reach(c, approved, before).approved == {}
    ensures Reach(c, approved, before + after) == Reach(c, approved, before)
  {
    hide Inv, Run;
    InitialInv(c, approved);
    RunSilent(c, Initial(approved), before);
    RunConcat(c, Initial(approved), before, after);
    NothingLeft(c, Reach(c, approved, before), after);
  }

  // ---- Deadlines ----

  /** Jobs may end, and may change in everything but their deadline. */
  ghost predicate SameDeadlines(s: State, u: State) {
    forall t :: t in u.jobs ==> t in s.jobs && u.jobs[t].deadline == s.jobs[t].deadline
  }

  lemma SendDeadlines(c: Config, s: State, t: nat, accepts: bool)
    requires Sendable(s, t)
    ensures SameDeadlines(s, SendOrFail(c, s, t, accepts))
  {
    hide NextFrame, Without;
  }

  lemma PutThenSendDeadlines(c: Config, s: State, u: State, t: nat, k: Job, accepts: bool)
    requires SameDeadlines(s, u) && t in u.jobs && k.deadline == u.jobs[t].deadline && k.sent <= |k.observation|
    ensures SameDeadlines(s, SendOrFail(c, PutJob(u, t, k), t, accepts))
  {
    hide SendOrFail;
    SendDeadlines(c, PutJob(u, t, k), t, accepts);
  }

  lemma CheckDeadlines(c: Config, s: State, t: nat, w: World)
    requires Sendable(s, t)
    ensures SameDeadlines(s, CheckJobParts(c, s, t, w))
  {
    hide SendOrFail, Without;
    var job := s.jobs[t];
    var a := Note(PutJob(s, t, job.(phase := Fetching, missing := w.missing)), PartsReady(t, PartsOf(job)));
    SendDeadlines(c, a, t, w.accepts);
    PutThenSendDeadlines(c, s, s, t, job.(phase := ReportDependency, missing := w.missing), w.accepts);
  }

  lemma ImportDeadlines(c: Config, s: State, t: nat, w: World)
    requires t in s.jobs && s.jobs[t].sent == 0
    ensures SameDeadlines(s, ImportJob(c, s, t, w))
  {
    hide SendOrFail, Without, LoadContent, Refresh;
    RefreshPrefixed(s, w, t, s.jobs[t].bytes);
    RefreshDeadlines(s, w);
    var r := Refresh(s, w);
    var d := c.digest(s.jobs[t].bytes);
    if r.ok && d.Some? {
      var o := LoadContent(r.state, t, d.value, s.jobs[t].bytes, w);
      LoadedJobs(r.state, t, d.value, s.jobs[t].bytes, w);
      if w.encoded.Some? {
        var k := s.jobs[t].(observation := w.encoded.value, bytes := [], phase := ObserveBegin);
        PutThenSendDeadlines(c, s, o.state, t, k, w.accepts);
      }
    }
  }

  lemma RefreshDeadlines(s: State, w: World)
    ensures SameDeadlines(s, Refresh(s, w).state)
  {}

  lemma WorkDeadlines(c: Config, s: State, w: World)
    requires Inv(c, s)
    ensures Bounded(s) && SameDeadlines(s, Work(c, s, w))
  {
    InvBounded(c, s);
    hide Inv, CheckJobParts, ImportJob, SameDeadlines;
    if Idle(s) {
      DeadlinesStay(s);
    } else {
      var t := FirstWaiting(s);
      if s.jobs[t].phase == CheckParts {
        CheckDeadlines(c, s, t, w);
      } else {
        ImportDeadlines(c, s, t, w);
      }
    }
  }

  lemma DeadlinesStay(s: State)
    ensures SameDeadlines(s, s)
  {}

  /** After an update no late job is left, and expiry has ended no other. */
  lemma NoLateJobs(c: Config, s: State, w: World)
    requires Inv(c, s) && s.approved != {}
    ensures Bounded(s)
    ensures forall t :: t in UpdateAll(c, s, w).jobs ==> t in s.jobs && w.clock(t) < s.jobs[t].deadline
    ensures forall t :: t in s.jobs ==> (t in Expire(s, w.clock).jobs <==> w.clock(t) < s.jobs[t].deadline)
  {
    InvBounded(c, s);
    DropKeeps(c, s, Late(s, w.clock), {});
    WorkDeadlines(c, Expire(s, w.clock), w);
    hide Inv, Work, Bounded, Without;
  }

  // ---- An honest coordinator ----

  /** The chunk of these bytes that starts at the requested offset (src/network/content_control.cpp). */
  function Reply(r: nat, p: Pending, total: nat, data: seq<byte>, hash: Digest): Frame {
    Frame(p.op, false, r, p.transaction, p.offset, total, hash, NO_KEY, data)
  }

  function Slice(bytes: seq<byte>, offset: nat): seq<byte> {
    if offset > |bytes| then [] else bytes[offset..Min(offset + CHUNK, |bytes|)]
  }

  /** No other step changes the bytes a job has fetched, except to clear them. */
  ghost predicate KeepsBytes(s: State, u: State) {
    forall t :: t in u.jobs ==> u.jobs[t].bytes == [] || (t in s.jobs && u.jobs[t].bytes == s.jobs[t].bytes)
  }

  ghost predicate Prefixed(s: State, t: nat, bytes: seq<byte>) {
    t in s.jobs ==> s.jobs[t].bytes <= bytes
  }

  /** Every fetch answer for this transaction carries these bytes at its offset. */
  predicate Honest(input: Input, t: nat, bytes: seq<byte>) {
    input.Receive? && input.frame.Some? && input.frame.value.op == Fetch && input.frame.value.transaction == t ==>
      var f := input.frame.value;
      f.offset + |f.data| <= |bytes| && f.data == bytes[f.offset..f.offset + |f.data|]
  }

  lemma DropPrefixed(s: State, ts: set<nat>, t: nat, bytes: seq<byte>)
    requires Prefixed(s, t, bytes)
    ensures Prefixed(Drop(s, ts), t, bytes)
  {}

  /** Sending does not touch what a job has fetched. */
  lemma SendPrefixed(c: Config, s: State, v: nat, accepts: bool, t: nat, bytes: seq<byte>)
    requires Sendable(s, v) && Prefixed(s, t, bytes)
    ensures Prefixed(SendOrFail(c, s, v, accepts), t, bytes)
  {
    hide SendOrFail;
    SendKeepsBytes(c, s, v, accepts);
  }

  lemma PutPrefixed(s: State, v: nat, k: Job, t: nat, bytes: seq<byte>)
    requires Prefixed(s, t, bytes) && (k.bytes == [] || (v in s.jobs && k.bytes == s.jobs[v].bytes))
    ensures Prefixed(PutJob(s, v, k), t, bytes)
  {}

  lemma NotePrefixed(s: State, e: Event, t: nat, bytes: seq<byte>)
    requires Prefixed(s, t, bytes)
    ensures Prefixed(Note(s, e), t, bytes)
  {}

  lemma RefreshPrefixed(s: State, w: World, t: nat, bytes: seq<byte>)
    requires Prefixed(s, t, bytes)
    ensures Prefixed(Refresh(s, w).state, t, bytes) && (Refresh(s, w).ok ==> Refresh(s, w).state.jobs == s.jobs)
  {}

  lemma SendKeepsBytes(c: Config, s: State, t: nat, accepts: bool)
    requires Sendable(s, t)
    ensures KeepsBytes(s, SendOrFail(c, s, t, accepts))
  {
    hide NextFrame, Without;
  }

  lemma ResponsePrefixed(c: Config, s: State, f: Frame, w: World, t: nat, bytes: seq<byte>)
    requires Inv(c, s) && Prefixed(s, t, bytes) && Honest(Receive(Some(f)), t, bytes)
    ensures Bounded(s) && Prefixed(ReceiveResponse(c, s, f, w), t, bytes)
  {
    ResponseKeeps(c, s, f, w);
    hide Inv, SendOrFail, Drop, ApplyResponse, Honest, Sendable;
    if f.request in s.pending {
      var p := s.pending[f.request];
      var v, u := p.transaction, s.(pending := s.pending - {f.request});
      DropPrefixed(u, {v}, t, bytes);
      if v in u.jobs && f.transaction == v && f.op == p.op {
        AppliedPrefixed(c, u, v, f, p, t, bytes);
        AppliedSendable(c, s, f);
        var o := ApplyResponse(c, u, v, f, p);
        if o.ok {
          SendPrefixed(c, o.state, v, w.accepts, t, bytes);
        }
      }
    }
  }

  lemma AppliedSendable(c: Config, s: State, f: Frame)
    requires Inv(c, s) && f.request in s.pending
    requires f.transaction == s.pending[f.request].transaction && f.op == s.pending[f.request].op
    ensures var p := s.pending[f.request];
            var u := s.(pending := s.pending - {f.request});
            && p.transaction in u.jobs
            && var o := ApplyResponse(c, u, p.transaction, f, p);
               o.ok ==> Sendable(o.state, p.transaction)
  {
    var p := s.pending[f.request];
    var t, u := p.transaction, s.(pending := s.pending - {f.request});
    TakeAnswer(c, s, f.request);
    hide Core, ApplyResponse;
    ResponseApplied(c, u, t, f, p);
    var o := ApplyResponse(c, u, t, f, p);
    if o.ok {
      hide Ready;
      ReadySendable(c, o.state, t);
    }
  }

  lemma ReadySendable(c: Config, s: State, t: nat)
    requires t in s.jobs && Ready(c, s.trace, t, s.jobs[t], false)
    ensures Sendable(s, t)
  {
    hide Verified, Uploaded;
  }

  lemma AppliedPrefixed(c: Config, u: State, v: nat, f: Frame, p: Pending, t: nat, bytes: seq<byte>)
    requires v in u.jobs && Prefixed(u, t, bytes) && f.transaction == v && Honest(Receive(Some(f)), t, bytes)
    ensures Prefixed(ApplyResponse(c, u, v, f, p).state, t, bytes)
  {
    hide Verified, Without;
    if f.op == Fetch && v == t && FetchChunkOk(u.jobs[v], f, p) {
      var b := u.jobs[v].bytes;
      assert b == bytes[..|b|];
      assert b + f.data == bytes[..|b| + |f.data|];
    }
  }

  lemma BeginPrefixed(c: Config, s: State, f: Frame, w: World, t: nat, bytes: seq<byte>)
    requires Inv(c, s) && Prefixed(s, t, bytes)
    ensures Prefixed(BeginJob(c, s, f, w), t, bytes)
  {
    hide SendOrFail, Inv, Refresh, Prefixed;
    RefreshPrefixed(s, w, t, bytes);
    var o := Refresh(s, w);
    if f.transaction != 0 && o.ok && !Refused(c, o.state, f) {
      var v, job := f.transaction, NewJob(c, f, w.clock(f.transaction));
      PutPrefixed(o.state, v, job, t, bytes);
      var e := Begun(v, job.expected, job.properties);
      NotePrefixed(PutJob(o.state, v, job), e, t, bytes);
      SendPrefixed(c, Note(PutJob(o.state, v, job), e), v, w.accepts, t, bytes);
    }
  }

  lemma WorkPrefixed(c: Config, s: State, w: World, t: nat, bytes: seq<byte>)
    requires Inv(c, s) && Prefixed(s, t, bytes)
    ensures Bounded(s) && Prefixed(Work(c, s, w), t, bytes)
  {
    InvBounded(c, s);
    hide CheckJobParts, ImportJob, Inv, Prefixed;
    if !Idle(s) {
      var v := FirstWaiting(s);
      if s.jobs[v].phase == CheckParts {
        CheckPrefixed(c, s, v, w, t, bytes);
      } else {
        ImportPrefixed(c, s, v, w, t, bytes);
      }
    }
  }

  lemma CheckPrefixed(c: Config, s: State, v: nat, w: World, t: nat, bytes: seq<byte>)
    requires Sendable(s, v) && Prefixed(s, t, bytes)
    ensures Prefixed(CheckJobParts(c, s, v, w), t, bytes)
  {
    hide SendOrFail, Prefixed, Drop;
    DropPrefixed(s, {v}, t, bytes);
    var job := s.jobs[v];
    var k := job.(phase := if w.held then Fetching else ReportDependency, missing := w.missing);
    PutPrefixed(s, v, k, t, bytes);
    var u := PutJob(s, v, k);
    NotePrefixed(u, PartsReady(v, PartsOf(job)), t, bytes);
    SendPrefixed(c, if w.held then Note(u, PartsReady(v, PartsOf(job))) else u, v, w.accepts, t, bytes);
  }

  lemma ImportPrefixed(c: Config, s: State, v: nat, w: World, t: nat, bytes: seq<byte>)
    requires v in s.jobs && s.jobs[v].sent == 0 && Prefixed(s, t, bytes)
    ensures Prefixed(ImportJob(c, s, v, w), t, bytes)
  {
    hide SendOrFail, Drop, Refresh, LoadContent;
    RefreshPrefixed(s, w, t, bytes);
    var r := Refresh(s, w);
    var d := c.digest(s.jobs[v].bytes);
    if r.ok {
      DropPrefixed(r.state, {v}, t, bytes);
      if d.Some? {
        var o := LoadContent(r.state, v, d.value, s.jobs[v].bytes, w);
        LoadedJobs(r.state, v, d.value, s.jobs[v].bytes, w);
        DropPrefixed(o.state, {v}, t, bytes);
        if w.encoded.Some? {
          var k := s.jobs[v].(observation := w.encoded.value, bytes := [], phase := ObserveBegin);
          PutPrefixed(o.state, v, k, t, bytes);
          SendPrefixed(c, PutJob(o.state, v, k), v, w.accepts, t, bytes);
        }
      }
    }
  }

  lemma LoadedJobs(s: State, t: nat, hash: Digest, bytes: seq<byte>, w: World)
    ensures LoadContent(s, t, hash, bytes, w).state.jobs == s.jobs
  {}

  lemma FramePrefixed(c: Config, s: State, f: Frame, w: World, t: nat, bytes: seq<byte>)
    requires Inv(c, s) && Prefixed(s, t, bytes) && Honest(Receive(Some(f)), t, bytes)
    ensures Bounded(s) && Prefixed(ReceiveFrame(c, s, Some(f), w), t, bytes)
  {
    hide *;
    ResponsePrefixed(c, s, f, w, t, bytes);
    BeginPrefixed(c, s, f, w, t, bytes);
    DropPrefixed(s, {f.transaction}, t, bytes);
    FrameCases(c, s, f, w);
  }

  lemma UpdatePrefixed(c: Config, s: State, w: World, t: nat, bytes: seq<byte>)
    requires Inv(c, s) && Prefixed(s, t, bytes)
    ensures Bounded(s) && Prefixed(UpdateAll(c, s, w), t, bytes)
  {
    InvBounded(c, s);
    hide Core, Work, Drop, Prefixed;
    DropKeeps(c, s, Late(s, w.clock), {});
    DropPrefixed(s, Late(s, w.clock), t, bytes);
    WorkPrefixed(c, Expire(s, w.clock), w, t, bytes);
  }

  lemma StepPrefixed(c: Config, s: State, turn: Turn, t: nat, bytes: seq<byte>)
    requires Inv(c, s) && Prefixed(s, t, bytes) && Honest(turn.input, t, bytes)
    ensures Bounded(s) && Prefixed(Step(c, s, turn.input, turn.world), t, bytes)
  {
    InvBounded(c, s);
    hide Inv, ReceiveResponse, BeginJob, UpdateAll, Drop, Honest;
    match turn.input
    case Receive(frame) =>
      if frame.Some? {
        FramePrefixed(c, s, frame.value, turn.world, t, bytes);
      }
    case Update => UpdatePrefixed(c, s, turn.world, t, bytes);
    case Fence =>
  }

  /** In any run whose fetch answers come from these bytes, what a job has received is a prefix of them. */
  lemma {:induction false} ReceivedIsPrefix(c: Config, s: State, turns: seq<Turn>, t: nat, bytes: seq<byte>)
    requires Inv(c, s) && Prefixed(s, t, bytes)
    requires forall i :: 0 <= i < |turns| ==> Honest(turns[i].input, t, bytes)
    ensures Prefixed(Run(c, s, turns), t, bytes)
    decreases |turns|
  {
    hide Inv, Step, Honest, Prefixed;
    if turns != [] {
      StepKeeps(c, s, turns[0].input, turns[0].world);
      StepPrefixed(c, s, turns[0], t, bytes);
      ReceivedIsPrefix(c, Step(c, s, turns[0].input, turns[0].world), turns[1..], t, bytes);
    }
  }

  // ---- Answers among other turns ----

  /** What the coordinator answers to the request with a number. */
  type Answers = (nat, Pending) -> Frame

  /** This turn brings the answer to the outstanding request of a transaction, and output takes the next one. */
  predicate AnswersTo(s: State, turn: Turn, t: nat, answers: Answers) {
    && turn.world.accepts && turn.input.Receive? && turn.input.frame.Some?
    && var f := turn.input.frame.value;
       && f.request in s.pending && s.pending[f.request].transaction == t
       && f == answers(f.request, s.pending[f.request])
  }

  /**
    A run that ends with the n-th answer to a transaction. Between the answers anything may happen that is not for that
    transaction: frames for other transactions, whatever they say, new transactions, and updates before its deadline.
  */
  ghost predicate Interleaved(c: Config, s: State, turns: seq<Turn>, t: nat, answers: Answers, n: nat)
    requires Inv(c, s)
    decreases |turns|
  {
    if n == 0 then turns == []
    else
      turns != [] && t in s.jobs &&
      var turn := turns[0];
      StepKeeps(c, s, turn.input, turn.world);
      var u := Step(c, s, turn.input, turn.world);
      if AnswersTo(s, turn, t, answers) then Interleaved(c, u, turns[1..], t, answers, n - 1)
      else Harmless(s, turn.input, turn.world, t) && Interleaved(c, u, turns[1..], t, answers, n)
  }

  /** The first turn of such a run: it leaves the job and its request alone, or it is the answer. */
  lemma FirstTurn(c: Config, s: State, turns: seq<Turn>, t: nat, r: nat, answers: Answers, n: nat)
    requires Inv(c, s) && Interleaved(c, s, turns, t, answers, n) && n > 0
    requires t in s.jobs && !Waits(s.jobs[t]) && r in s.pending && s.pending[r].transaction == t
    ensures turns != [] && Bounded(s) && 1 <= r
    ensures var u := Step(c, s, turns[0].input, turns[0].world);
            && Inv(c, u) && Run(c, s, turns) == Run(c, u, turns[1..])
            && if AnswersTo(s, turns[0], t, answers) then
                 && turns[0].world.accepts && Interleaved(c, u, turns[1..], t, answers, n - 1)
                 && u == ReceiveFrame(c, s, Some(answers(r, s.pending[r])), turns[0].world)
               else Untouched(s, u, t, 1) && Interleaved(c, u, turns[1..], t, answers, n)
  {
    var turn := turns[0];
    StepKeeps(c, s, turn.input, turn.world);
    assert PendingOk(s, r, {});
    if AnswersTo(s, turn, t, answers) {
      OnlyRequest(c, s, turn.input.frame.value.request, r);
    } else {
      hide Inv, Untouched, Step;
      HarmlessKeeps(c, s, turn.input, turn.world, t);
    }
  }

  lemma OnlyRequest(c: Config, s: State, q: nat, r: nat)
    requires Inv(c, s) && q in s.pending && r in s.pending && s.pending[q].transaction == s.pending[r].transaction
    ensures q == r
  {
    hide RequestsOk, JobsOk, LoadsOk;
  }

  /** The turn that answers a request. */
  lemma AnswerTurn(c: Config, s: State, t: nat, r: nat, answers: Answers, w: World) returns (turn: Turn, u: State)
    requires Inv(c, s) && r in s.pending && s.pending[r].transaction == t && w.accepts
    requires answers(r, s.pending[r]).request == r
    ensures turn == Turn(Receive(Some(answers(r, s.pending[r]))), w) && AnswersTo(s, turn, t, answers) && 1 <= r
    ensures Bounded(s) && u == Step(c, s, turn.input, w) && Inv(c, u)
    ensures u == ReceiveFrame(c, s, Some(answers(r, s.pending[r])), w)
  {
    assert PendingOk(s, r, {});
    turn := Turn(Receive(Some(answers(r, s.pending[r]))), w);
    StepKeeps(c, s, turn.input, w);
    u := Step(c, s, turn.input, w);
    hide Inv, ReceiveFrame;
  }

  lemma NoTurns(c: Config, s: State, t: nat, answers: Answers)
    requires Inv(c, s)
    ensures Interleaved(c, s, [], t, answers, 0)
  {}

  lemma AnswerFirst(c: Config, s: State, turn: Turn, rest: seq<Turn>, t: nat, answers: Answers, n: nat)
    requires Inv(c, s) && Bounded(s) && Inv(c, Step(c, s, turn.input, turn.world)) && t in s.jobs
    requires AnswersTo(s, turn, t, answers) && Interleaved(c, Step(c, s, turn.input, turn.world), rest, t, answers, n)
    ensures Interleaved(c, s, [turn] + rest, t, answers, n + 1)
  {
    hide Inv, Step, AnswersTo, Bounded;
    assert ([turn] + rest)[1..] == rest;
  }

  /** How many chunks so many bytes take. */
  function Chunks(n: nat): nat {
    (n + CHUNK - 1) / CHUNK
  }

  // ---- Completion ----

  /** A job in the middle of fetching these bytes, with its request out. */
  ghost predicate FetchingFrom(s: State, t: nat, bytes: seq<byte>, r: nat) {
    && t in s.jobs && s.jobs[t].phase == Fetching && s.jobs[t].bytes <= bytes && |s.jobs[t].bytes| < |bytes|
    && (s.jobs[t].total == 0 || s.jobs[t].total == |bytes|)
    && r in s.pending && s.pending[r] == Pending(t, Fetch, |s.jobs[t].bytes|)
  }

  function FetchReply(r: nat, t: nat, bytes: seq<byte>, offset: nat): Frame {
    Reply(r, Pending(t, Fetch, offset), |bytes|, Slice(bytes, offset), ZERO)
  }

  /** How the answer to an outstanding request is carried out. */
  lemma AnswerRoutes(c: Config, s: State, f: Frame, w: World)
    requires Inv(c, s) && s.approved != {} && f.request != 0 && f.request in s.pending && !f.failed
    requires f.transaction == s.pending[f.request].transaction && f.op == s.pending[f.request].op
    requires f.op != DependencyFailure
    ensures Bounded(s) && Inv(c, ReceiveFrame(c, s, Some(f), w))
    ensures var p, u := s.pending[f.request], s.(pending := s.pending - {f.request});
            && Answered(c, u, p.transaction, p)
            && var o := ApplyResponse(c, u, p.transaction, f, p);
               && Applied(c, o, p.transaction)
               && (o.ok ==> Sendable(o.state, p.transaction))
               && ReceiveFrame(c, s, Some(f), w)
                  == if o.ok then SendOrFail(c, o.state, p.transaction, w.accepts) else o.state
  {
    FrameKeeps(c, s, Some(f), w);
    InvBounded(c, s);
    TakeAnswer(c, s, f.request);
    hide Inv, Core, Ready, SendOrFail, Drop, ApplyResponse, Matches;
    var p, u := s.pending[f.request], s.(pending := s.pending - {f.request});
    ResponseApplied(c, u, p.transaction, f, p);
    var o := ApplyResponse(c, u, p.transaction, f, p);
    if o.ok {
      ReadySendable(c, o.state, p.transaction);
    }
  }

  lemma AppliedNext(c: Config, o: Outcome, t: nat)
    requires Applied(c, o, t) && o.ok
    ensures Core(c, o.state, {t}) && t in o.state.jobs && Ready(c, o.state.trace, t, o.state.jobs[t], false)
  {}

  /** From one state of a fetch to the next: one whole chunk more, and the next request, or all of it. */
  ghost predicate FetchedMore(c: Config, s: State, u: State, t: nat, bytes: seq<byte>)
    requires t in s.jobs
  {
    var had := |s.jobs[t].bytes|;
    && Inv(c, u) && u.approved == s.approved && t in u.jobs
    && u.jobs[t].bytes == bytes[..Min(had + CHUNK, |bytes|)]
    && (had + CHUNK >= |bytes| ==> u.jobs[t].phase == Import && u.sequence == s.sequence)
    && (had + CHUNK < |bytes| ==> u.sequence == s.sequence + 1 && FetchingFrom(u, t, bytes, u.sequence))
  }

  /** The job after the chunk, before or after its next request, is one step on. */
  lemma FetchAdvances(c: Config, s: State, u: State, t: nat, bytes: seq<byte>, r: nat)
    requires FetchingFrom(s, t, bytes, r) && Inv(c, u) && u.approved == s.approved && t in u.jobs
    requires u.jobs[t].bytes == bytes[..Min(|s.jobs[t].bytes| + CHUNK, |bytes|)] && u.jobs[t].total == |bytes|
    requires if |s.jobs[t].bytes| + CHUNK < |bytes| then
               && u.jobs[t].phase == Fetching && u.sequence == s.sequence + 1
               && u.sequence in u.pending && u.pending[u.sequence] == Pending(t, Fetch, |u.jobs[t].bytes|)
             else u.jobs[t].phase == Import && u.sequence == s.sequence
    ensures FetchedMore(c, s, u, t, bytes)
  {
    hide Inv;
  }

  /** One honest answer adds one whole chunk; the job asks for the next one, or has all of it. */
  lemma FetchStep(c: Config, s: State, t: nat, bytes: seq<byte>, r: nat, w: World)
    requires Inv(c, s) && s.approved != {} && FetchingFrom(s, t, bytes, r) && r != 0
    requires MIN_PNG <= |bytes| <= MAX_PNG && w.accepts && s.sequence < MAX_SEQUENCE
    ensures Bounded(s)
    ensures FetchedMore(c, s, ReceiveFrame(c, s, Some(FetchReply(r, t, bytes, |s.jobs[t].bytes|)), w), t, bytes)
  {
    var had, p := |s.jobs[t].bytes|, s.pending[r];
    var f := FetchReply(r, t, bytes, had);
    AnswerRoutes(c, s, f, w);
    var u := s.(pending := s.pending - {r});
    FetchChunk(s, t, bytes, f, r);
    var o := ApplyResponse(c, u, t, f, p);
    var v := ReceiveFrame(c, s, Some(f), w);
    assert o == ReceiveFetch(u, t, f, p) && o.ok == (had + CHUNK < |bytes|);
    assert t in o.state.jobs && o.state.jobs[t].total == |bytes| && o.state.sequence == s.sequence
        && o.state.approved == s.approved && o.state.jobs[t].bytes == bytes[..Min(had + CHUNK, |bytes|)]
        && o.state.jobs[t].phase == if o.ok then Fetching else Import;
    hide *;
    if o.ok {
      AppliedNext(c, o, t);
      FetchSends(c, o.state, t, w.accepts);
    }
    FetchAdvances(c, s, v, t, bytes, r);
  }

  lemma FetchChunk(s: State, t: nat, bytes: seq<byte>, f: Frame, r: nat)
    requires FetchingFrom(s, t, bytes, r) && MIN_PNG <= |bytes| <= MAX_PNG
    requires f == FetchReply(r, t, bytes, |s.jobs[t].bytes|)
    ensures var had, p := |s.jobs[t].bytes|, s.pending[r];
            var u := s.(pending := s.pending - {r});
            var job := s.jobs[t].(total := |bytes|, bytes := bytes[..Min(had + CHUNK, |bytes|)]);
            var more := had + CHUNK < |bytes|;
            ReceiveFetch(u, t, f, p) == Outcome(PutJob(u, t, if more then job else job.(phase := Import)), more)
  {
    var had := |s.jobs[t].bytes|;
    assert s.jobs[t].bytes == bytes[..had];
    assert s.jobs[t].bytes + f.data == bytes[..Min(had + CHUNK, |bytes|)];
    assert FetchChunkOk(s.jobs[t], f, s.pending[r]);
  }

  lemma RequestGoes(s: State, frame: Frame)
    requires |s.pending| <= 1 && s.sequence < MAX_SEQUENCE
    ensures var f := frame.(request := s.sequence + 1);
            Request(s, frame, true)
            == Outcome(WithRequest(Note(s, Sent(frame.transaction, f)),
                                   Pending(frame.transaction, frame.op, frame.offset)),
                       true)
  {}

  lemma FetchSends(c: Config, s: State, t: nat, accepts: bool)
    requires Core(c, s, {t}) && t in s.jobs && Ready(c, s.trace, t, s.jobs[t], false) && s.jobs[t].phase == Fetching
    requires accepts && s.sequence < MAX_SEQUENCE
    ensures Sendable(s, t)
    ensures var u := SendOrFail(c, s, t, accepts);
            && u.jobs == s.jobs && u.sequence == s.sequence + 1 && u.approved == s.approved
            && u.sequence in u.pending && u.pending[u.sequence] == Pending(t, Fetch, |s.jobs[t].bytes|)
  {
    CapacityFree(c, s, t);
    ReadySendable(c, s, t);
    hide *;
    FetchGoes(c, s, t);
  }

  lemma FetchGoes(c: Config, s: State, t: nat)
    requires Sendable(s, t) && s.jobs[t].phase == Fetching && |s.pending| <= 1 && s.sequence < MAX_SEQUENCE
    ensures var u := SendOrFail(c, s, t, true);
            && u.jobs == s.jobs && u.sequence == s.sequence + 1 && u.approved == s.approved
            && u.sequence in u.pending && u.pending[u.sequence] == Pending(t, Fetch, |s.jobs[t].bytes|)
  {
    hide Request, Drop;
    assert s.jobs[t := s.jobs[t]] == s.jobs;
    RequestGoes(s, Blank(Fetch, t).(offset := |s.jobs[t].bytes|));
  }

  function FetchAnswers(bytes: seq<byte>): Answers {
    (r: nat, p: Pending) => FetchReply(r, p.transaction, bytes, p.offset)
  }

  lemma FetchAnswer(bytes: seq<byte>, r: nat, t: nat, offset: nat)
    ensures FetchAnswers(bytes)(r, Pending(t, Fetch, offset)) == FetchReply(r, t, bytes, offset)
    ensures FetchReply(r, t, bytes, offset).request == r
  {}

  lemma FetchingKept(s: State, u: State, t: nat, bytes: seq<byte>, r: nat)
    requires FetchingFrom(s, t, bytes, r) && Untouched(s, u, t, 1) && s.approved != {}
    ensures FetchingFrom(u, t, bytes, r) && u.approved != {} && u.sequence <= s.sequence + 1
    ensures u.jobs[t].bytes == s.jobs[t].bytes
  {}

  lemma Fetches(s: State, t: nat, bytes: seq<byte>, r: nat)
    requires FetchingFrom(s, t, bytes, r)
    ensures t in s.jobs && !Waits(s.jobs[t]) && |s.jobs[t].bytes| < |bytes|
    ensures r in s.pending && s.pending[r] == Pending(t, Fetch, |s.jobs[t].bytes|)
  {}

  lemma FetchLeaves(c: Config, s: State, u: State, t: nat, bytes: seq<byte>)
    requires t in s.jobs && |s.jobs[t].bytes| < |bytes| && FetchedMore(c, s, u, t, bytes)
    ensures u.approved == s.approved && t in u.jobs
    ensures var more := Chunks(|bytes| - |s.jobs[t].bytes|) - 1;
            && (more == 0 ==> u.jobs[t].phase == Import && u.jobs[t].bytes == bytes)
            && (more > 0 ==>
                  && FetchingFrom(u, t, bytes, u.sequence) && u.sequence == s.sequence + 1
                  && |u.jobs[t].bytes| < |bytes| && more == Chunks(|bytes| - |u.jobs[t].bytes|))
  {
    hide Inv;
    if |s.jobs[t].bytes| + CHUNK >= |bytes| {
      assert bytes[..|bytes|] == bytes;
    }
  }

  /**
    Answered honestly, a fetch ends, with exactly these bytes: at the answer that brings the last chunk, whatever else
    happens between the answers.
  */
  lemma {:induction false} FetchCompletes(c: Config, s: State, t: nat, bytes: seq<byte>, r: nat, turns: seq<Turn>)
    requires Inv(c, s) && s.approved != {} && FetchingFrom(s, t, bytes, r) && MIN_PNG <= |bytes| <= MAX_PNG
    requires s.sequence + |turns| <= MAX_SEQUENCE
    requires Interleaved(c, s, turns, t, FetchAnswers(bytes), Chunks(|bytes| - |s.jobs[t].bytes|))
    ensures var u := Run(c, s, turns); t in u.jobs && u.jobs[t].phase == Import && u.jobs[t].bytes == bytes
    decreases |turns|
  {
    hide *;
    Fetches(s, t, bytes, r);
    var n := Chunks(|bytes| - |s.jobs[t].bytes|);
    SomeChunk(|bytes| - |s.jobs[t].bytes|);
    FirstTurn(c, s, turns, t, r, FetchAnswers(bytes), n);
    var turn := turns[0];
    var u := Step(c, s, turn.input, turn.world);
    if AnswersTo(s, turn, t, FetchAnswers(bytes)) {
      FetchAnswer(bytes, r, t, |s.jobs[t].bytes|);
      FetchStep(c, s, t, bytes, r, turn.world);
      FetchLeaves(c, s, u, t, bytes);
      if n > 1 {
        FetchCompletes(c, u, t, bytes, u.sequence, turns[1..]);
      } else {
        RunEnds(c, u, turns[1..], t, FetchAnswers(bytes));
      }
    } else {
      FetchingKept(s, u, t, bytes, r);
      FetchCompletes(c, u, t, bytes, r, turns[1..]);
    }
  }

  /** The honest answers alone are such a run. */
  lemma {:induction false} FetchAnswered(c: Config, s: State, t: nat, bytes: seq<byte>, r: nat, w: World)
    returns (turns: seq<Turn>)
    requires Inv(c, s) && s.approved != {} && FetchingFrom(s, t, bytes, r) && MIN_PNG <= |bytes| <= MAX_PNG
    requires w.accepts && s.sequence + Chunks(|bytes| - |s.jobs[t].bytes|) <= MAX_SEQUENCE
    ensures |turns| == Chunks(|bytes| - |s.jobs[t].bytes|)
    ensures Interleaved(c, s, turns, t, FetchAnswers(bytes), |turns|)
    decreases Chunks(|bytes| - |s.jobs[t].bytes|)
  {
    hide *;
    Fetches(s, t, bytes, r);
    var n := Chunks(|bytes| - |s.jobs[t].bytes|);
    SomeChunk(|bytes| - |s.jobs[t].bytes|);
    FetchAnswer(bytes, r, t, |s.jobs[t].bytes|);
    var turn, u := AnswerTurn(c, s, t, r, FetchAnswers(bytes), w);
    FetchStep(c, s, t, bytes, r, w);
    FetchLeaves(c, s, u, t, bytes);
    if n > 1 {
      turns := FetchAnswered(c, u, t, bytes, u.sequence, w);
    } else {
      turns := [];
      NoTurns(c, u, t, FetchAnswers(bytes));
    }
    AnswerFirst(c, s, turn, turns, t, FetchAnswers(bytes), |turns|);
    turns := [turn] + turns;
  }

  lemma SomeChunk(n: nat)
    ensures n > 0 ==> Chunks(n) > 0
  {}

  lemma RunEnds(c: Config, s: State, turns: seq<Turn>, t: nat, answers: Answers)
    requires Inv(c, s) && Interleaved(c, s, turns, t, answers, 0)
    ensures Run(c, s, turns) == s
  {}

  // ---- The manifest ----

  /** A player's job in the middle of receiving this manifest, with its request out. */
  ghost predicate Gathering(c: Config, s: State, t: nat, bytes: seq<byte>, hash: Digest, r: nat) {
    && t in s.jobs && s.jobs[t].phase == NeedDependencies
    && s.jobs[t].hashBytes <= bytes && |s.jobs[t].hashBytes| < |bytes|
    && (s.jobs[t].hashTotal == 0 || s.jobs[t].hashTotal == |bytes|)
    && (s.jobs[t].hash == ZERO || s.jobs[t].hash == hash)
    && c.decode(bytes).Some? && Names(c, s.jobs[t], c.decode(bytes).value)
    && r in s.pending && s.pending[r] == Pending(t, Dependencies, |s.jobs[t].hashBytes|)
  }

  /** These bytes are the manifest with this digest, of a size that is taken. */
  predicate Proper(c: Config, bytes: seq<byte>, hash: Digest) {
    MIN_DEPENDENCY <= |bytes| <= MAX_DEPENDENCY && c.digest(bytes) == Some(hash) && hash != ZERO
  }

  function ManifestReply(r: nat, t: nat, bytes: seq<byte>, offset: nat, hash: Digest): Frame {
    Reply(r, Pending(t, Dependencies, offset), |bytes|, Slice(bytes, offset), hash)
  }

  lemma ManifestChunk(c: Config, s: State, t: nat, bytes: seq<byte>, hash: Digest, f: Frame, r: nat)
    requires Gathering(c, s, t, bytes, hash, r) && Proper(c, bytes, hash)
    requires f == ManifestReply(r, t, bytes, |s.jobs[t].hashBytes|, hash)
    ensures var had, p := |s.jobs[t].hashBytes|, s.pending[r];
            var u := s.(pending := s.pending - {r});
            var job := s.jobs[t].(hashTotal := |bytes|, hash := hash, hashBytes := bytes[..Min(had + CHUNK, |bytes|)]);
            var full := job.(dependencies := c.decode(bytes).value, phase := CheckParts);
            var more := had + CHUNK < |bytes|;
            ReceiveDependencies(c, u, t, f, p) == Outcome(PutJob(u, t, if more then job else full), more)
  {
    var had := |s.jobs[t].hashBytes|;
    assert s.jobs[t].hashBytes == bytes[..had];
    assert s.jobs[t].hashBytes + f.data == bytes[..Min(had + CHUNK, |bytes|)];
    assert DependencyChunkOk(s.jobs[t], f, s.pending[r]);
    if had + CHUNK >= |bytes| {
      assert bytes[..|bytes|] == bytes;
    }
  }

  lemma ManifestSends(c: Config, s: State, t: nat, accepts: bool)
    requires Core(c, s, {t}) && t in s.jobs && Ready(c, s.trace, t, s.jobs[t], false)
    requires s.jobs[t].phase == NeedDependencies && accepts && s.sequence < MAX_SEQUENCE
    ensures Sendable(s, t)
    ensures var u := SendOrFail(c, s, t, accepts);
            && u.jobs == s.jobs && u.sequence == s.sequence + 1 && u.approved == s.approved
            && u.sequence in u.pending && u.pending[u.sequence] == Pending(t, Dependencies, |s.jobs[t].hashBytes|)
  {
    CapacityFree(c, s, t);
    ReadySendable(c, s, t);
    hide *;
    ManifestGoes(c, s, t);
  }

  lemma ManifestGoes(c: Config, s: State, t: nat)
    requires Sendable(s, t) && s.jobs[t].phase == NeedDependencies && |s.pending| <= 1 && s.sequence < MAX_SEQUENCE
    ensures var u := SendOrFail(c, s, t, true);
            && u.jobs == s.jobs && u.sequence == s.sequence + 1 && u.approved == s.approved
            && u.sequence in u.pending && u.pending[u.sequence] == Pending(t, Dependencies, |s.jobs[t].hashBytes|)
  {
    hide Request, Drop;
    assert s.jobs[t := s.jobs[t]] == s.jobs;
    RequestGoes(s, Blank(Dependencies, t).(offset := |s.jobs[t].hashBytes|));
  }

  ghost predicate TaughtMore(c: Config, s: State, u: State, t: nat, bytes: seq<byte>, hash: Digest)
    requires t in s.jobs
  {
    var had := |s.jobs[t].hashBytes|;
    && Inv(c, u) && u.approved == s.approved && t in u.jobs
    && u.jobs[t].hashBytes == bytes[..Min(had + CHUNK, |bytes|)]
    && (had + CHUNK >= |bytes| ==> u.jobs[t].phase == CheckParts && c.decode(bytes) == Some(u.jobs[t].dependencies))
    && (had + CHUNK < |bytes| ==> u.sequence == s.sequence + 1 && Gathering(c, u, t, bytes, hash, u.sequence))
  }

  lemma ManifestAdvances(c: Config, s: State, u: State, t: nat, bytes: seq<byte>, hash: Digest, r: nat)
    requires Gathering(c, s, t, bytes, hash, r) && Inv(c, u) && u.approved == s.approved && t in u.jobs
    requires u.jobs[t].hashBytes == bytes[..Min(|s.jobs[t].hashBytes| + CHUNK, |bytes|)]
    requires u.jobs[t].hashTotal == |bytes| && u.jobs[t].hash == hash && Names(c, u.jobs[t], c.decode(bytes).value)
    requires if |s.jobs[t].hashBytes| + CHUNK < |bytes| then
               && u.jobs[t].phase == NeedDependencies && u.sequence == s.sequence + 1
               && u.sequence in u.pending && u.pending[u.sequence] == Pending(t, Dependencies, |u.jobs[t].hashBytes|)
             else u.jobs[t].phase == CheckParts && c.decode(bytes) == Some(u.jobs[t].dependencies)
    ensures TaughtMore(c, s, u, t, bytes, hash)
  {
    hide Inv, Names;
  }

  /** One honest answer adds one chunk; the whole manifest is verified and its parts are to be checked. */
  lemma ManifestStep(c: Config, s: State, t: nat, bytes: seq<byte>, hash: Digest, r: nat, w: World)
    requires Inv(c, s) && s.approved != {} && Gathering(c, s, t, bytes, hash, r) && r != 0
    requires Proper(c, bytes, hash) && w.accepts && s.sequence < MAX_SEQUENCE
    ensures Bounded(s)
    ensures TaughtMore(c, s, ReceiveFrame(c, s, Some(ManifestReply(r, t, bytes, |s.jobs[t].hashBytes|, hash)), w), t,
                       bytes, hash)
  {
    var had, p := |s.jobs[t].hashBytes|, s.pending[r];
    var f := ManifestReply(r, t, bytes, had, hash);
    var u := s.(pending := s.pending - {r});
    ManifestOutcome(c, s, t, bytes, hash, f, r);
    hide *;
    AnswerRoutes(c, s, f, w);
    var o := ApplyResponse(c, u, t, f, p);
    if o.ok {
      AppliedNext(c, o, t);
      ManifestSends(c, o.state, t, w.accepts);
    }
    ManifestAdvances(c, s, ReceiveFrame(c, s, Some(f), w), t, bytes, hash, r);
  }

  lemma ManifestOutcome(c: Config, s: State, t: nat, bytes: seq<byte>, hash: Digest, f: Frame, r: nat)
    requires Gathering(c, s, t, bytes, hash, r) && Proper(c, bytes, hash)
    requires f == ManifestReply(r, t, bytes, |s.jobs[t].hashBytes|, hash)
    ensures var had, p := |s.jobs[t].hashBytes|, s.pending[r];
            && f.request == r && !f.failed && f.transaction == p.transaction == t && f.op == p.op == Dependencies
            && var o := ApplyResponse(c, s.(pending := s.pending - {r}), t, f, p);
               && o.ok == (had + CHUNK < |bytes|) && t in o.state.jobs
               && o.state.sequence == s.sequence && o.state.approved == s.approved
               && var job := o.state.jobs[t];
                  && job.hashTotal == |bytes| && job.hash == hash
                  && job.hashBytes == bytes[..Min(had + CHUNK, |bytes|)] && Names(c, job, c.decode(bytes).value)
                  && job.phase == (if o.ok then NeedDependencies else CheckParts)
                  && (!o.ok ==> c.decode(bytes) == Some(job.dependencies))
  {
    ManifestChunk(c, s, t, bytes, hash, f, r);
    hide ReceiveDependencies;
  }

  function ManifestAnswers(bytes: seq<byte>, hash: Digest): Answers {
    (r: nat, p: Pending) => ManifestReply(r, p.transaction, bytes, p.offset, hash)
  }

  lemma ManifestAnswer(bytes: seq<byte>, hash: Digest, r: nat, t: nat, offset: nat)
    ensures ManifestAnswers(bytes, hash)(r, Pending(t, Dependencies, offset))
         == ManifestReply(r, t, bytes, offset, hash)
    ensures ManifestReply(r, t, bytes, offset, hash).request == r
  {}

  lemma GatheringKept(c: Config, s: State, u: State, t: nat, bytes: seq<byte>, hash: Digest, r: nat)
    requires Gathering(c, s, t, bytes, hash, r) && Untouched(s, u, t, 1) && s.approved != {}
    ensures Gathering(c, u, t, bytes, hash, r) && u.approved != {} && u.sequence <= s.sequence + 1
    ensures u.jobs[t].hashBytes == s.jobs[t].hashBytes
  {
    hide Names;
  }

  lemma Gathers(c: Config, s: State, t: nat, bytes: seq<byte>, hash: Digest, r: nat)
    requires Gathering(c, s, t, bytes, hash, r)
    ensures t in s.jobs && !Waits(s.jobs[t]) && |s.jobs[t].hashBytes| < |bytes|
    ensures r in s.pending && s.pending[r] == Pending(t, Dependencies, |s.jobs[t].hashBytes|)
  {}

  lemma TeachingLeaves(c: Config, s: State, u: State, t: nat, bytes: seq<byte>, hash: Digest)
    requires t in s.jobs && |s.jobs[t].hashBytes| < |bytes| && TaughtMore(c, s, u, t, bytes, hash)
    ensures u.approved == s.approved && t in u.jobs
    ensures var more := Chunks(|bytes| - |s.jobs[t].hashBytes|) - 1;
            && (more == 0 ==>
                  && u.jobs[t].phase == CheckParts && u.jobs[t].hashBytes == bytes
                  && c.decode(bytes) == Some(u.jobs[t].dependencies))
            && (more > 0 ==>
                  && Gathering(c, u, t, bytes, hash, u.sequence) && u.sequence == s.sequence + 1
                  && |u.jobs[t].hashBytes| < |bytes| && more == Chunks(|bytes| - |u.jobs[t].hashBytes|))
  {
    hide Inv, Names;
    if |s.jobs[t].hashBytes| + CHUNK >= |bytes| {
      assert bytes[..|bytes|] == bytes;
    }
  }

  /**
    Answered honestly, a player's job receives the manifest of its transaction and goes on to check the parts, whatever
    else happens between the answers.
  */
  lemma {:induction false} ManifestCompletes(c: Config, s: State, t: nat, bytes: seq<byte>, hash: Digest, r: nat,
                                             turns: seq<Turn>)
    requires Inv(c, s) && s.approved != {} && Gathering(c, s, t, bytes, hash, r) && Proper(c, bytes, hash)
    requires s.sequence + |turns| <= MAX_SEQUENCE
    requires Interleaved(c, s, turns, t, ManifestAnswers(bytes, hash), Chunks(|bytes| - |s.jobs[t].hashBytes|))
    ensures var u := Run(c, s, turns);
            && t in u.jobs && u.jobs[t].phase == CheckParts && u.jobs[t].hashBytes == bytes
            && c.decode(bytes) == Some(u.jobs[t].dependencies)
    decreases |turns|
  {
    hide *;
    Gathers(c, s, t, bytes, hash, r);
    var n := Chunks(|bytes| - |s.jobs[t].hashBytes|);
    SomeChunk(|bytes| - |s.jobs[t].hashBytes|);
    FirstTurn(c, s, turns, t, r, ManifestAnswers(bytes, hash), n);
    var turn := turns[0];
    var u := Step(c, s, turn.input, turn.world);
    if AnswersTo(s, turn, t, ManifestAnswers(bytes, hash)) {
      ManifestAnswer(bytes, hash, r, t, |s.jobs[t].hashBytes|);
      ManifestStep(c, s, t, bytes, hash, r, turn.world);
      TeachingLeaves(c, s, u, t, bytes, hash);
      if n > 1 {
        ManifestCompletes(c, u, t, bytes, hash, u.sequence, turns[1..]);
      } else {
        RunEnds(c, u, turns[1..], t, ManifestAnswers(bytes, hash));
      }
    } else {
      GatheringKept(c, s, u, t, bytes, hash, r);
      ManifestCompletes(c, u, t, bytes, hash, r, turns[1..]);
    }
  }

  /** The honest answers alone are such a run. */
  lemma {:induction false} ManifestAnswered(c: Config, s: State, t: nat, bytes: seq<byte>, hash: Digest, r: nat,
                                            w: World)
    returns (turns: seq<Turn>)
    requires Inv(c, s) && s.approved != {} && Gathering(c, s, t, bytes, hash, r) && Proper(c, bytes, hash)
    requires w.accepts && s.sequence + Chunks(|bytes| - |s.jobs[t].hashBytes|) <= MAX_SEQUENCE
    ensures |turns| == Chunks(|bytes| - |s.jobs[t].hashBytes|)
    ensures Interleaved(c, s, turns, t, ManifestAnswers(bytes, hash), |turns|)
    decreases Chunks(|bytes| - |s.jobs[t].hashBytes|)
  {
    hide *;
    Gathers(c, s, t, bytes, hash, r);
    var n := Chunks(|bytes| - |s.jobs[t].hashBytes|);
    SomeChunk(|bytes| - |s.jobs[t].hashBytes|);
    ManifestAnswer(bytes, hash, r, t, |s.jobs[t].hashBytes|);
    var turn, u := AnswerTurn(c, s, t, r, ManifestAnswers(bytes, hash), w);
    ManifestStep(c, s, t, bytes, hash, r, w);
    TeachingLeaves(c, s, u, t, bytes, hash);
    if n > 1 {
      turns := ManifestAnswered(c, u, t, bytes, hash, u.sequence, w);
    } else {
      turns := [];
      NoTurns(c, u, t, ManifestAnswers(bytes, hash));
    }
    AnswerFirst(c, s, turn, turns, t, ManifestAnswers(bytes, hash), |turns|);
    turns := [turn] + turns;
  }
}
