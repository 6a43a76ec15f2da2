/**
  The coordinator's side of an observation (src/network/content_control.cpp): one upload for each connection, whatever
  transaction it belongs to. A begin is refused while there is one; what is added must continue it; its end is checked.
*/
module ContentCoordinator {
  import opened Basics
  import opened ContentSpec
  import opened Words
  import opened ContentSafety
  import opened ContentFrame
  import opened ContentRuns

  /** How a request gets to its operation: it does, it is turned away before, or its transaction is not admitted. */
  datatype Gate = Pass | Turned | Unadmitted

  /**
    What the coordinator decides by other means, for each request number: the gate, whether the upload was dropped
    since the request before, whether the observation decodes, whether the registry settles it.
  */
  datatype Peer = Peer(
    gate: nat -> Gate, dropped: nat -> bool, readable: seq<byte> -> bool, settles: nat -> bool)

  datatype Taken = Taken(slot: Upload, ok: bool)

  predicate Observes(f: Frame) {
    f.op == ObservationBegin || f.op == ObservationChunk || f.op == ObservationEnd
  }

  /** The end of an upload: it must be this transaction's and complete; then it is gone, whatever comes of it. */
  function Finish(c: Config, q: Peer, slot: Upload, f: Frame): Taken {
    if slot.transaction != f.transaction || |slot.bytes| != slot.total then Taken(slot, false)
    else Taken(NO_UPLOAD, c.digest(slot.bytes) == Some(slot.hash) && q.readable(slot.bytes) && q.settles(f.request))
  }

  /** One observation frame meets the upload slot of its connection. */
  function Serve(c: Config, q: Peer, slot: Upload, f: Frame): Taken {
    var kept := if q.dropped(f.request) then NO_UPLOAD else slot;
    match q.gate(f.request)
    case Turned => Taken(kept, false)
    case Unadmitted => Taken(if f.op == ObservationBegin then kept else NO_UPLOAD, false)
    case Pass =>
      if f.op == ObservationEnd then Finish(c, q, kept, f)
      else match Take(c, kept, f)
           case None => Taken(kept, false)
           case Some(u) => Taken(u, true)
  }

  /** The slot after everything the process has sent. */
  function SlotAfter(c: Config, q: Peer, trace: seq<Event>): Upload {
    if trace == [] then NO_UPLOAD
    else
      var before, e := SlotAfter(c, q, trace[..|trace| - 1]), trace[|trace| - 1];
      if e.Sent? && Observes(e.frame) then Serve(c, q, before, e.frame).slot else before
  }

  /**
    The observation frames of one transaction since its last begin: the kind of the last, whether those before it were
    taken, whether it was, and the slot it met.
  */
  datatype Progress = Progress(op: Op, earlier: bool, last: bool, met: Upload)

  function Track(c: Config, q: Peer, trace: seq<Event>, t: nat): Option<Progress>
    decreases |trace|, 0
  {
    if trace == [] then None
    else
      var before, e := trace[..|trace| - 1], trace[|trace| - 1];
      if e.transaction != t || !e.Sent? || !Observes(e.frame) then Track(c, q, before, t)
      else Follow(c, q, before, t, e.frame)
  }

  function Follow(c: Config, q: Peer, before: seq<Event>, t: nat, f: Frame): Option<Progress>
    decreases |before|, 1
  {
    var slot := SlotAfter(c, q, before);
    var ok := Serve(c, q, slot, f).ok;
    if f.op == ObservationBegin then Some(Progress(f.op, true, ok, slot))
    else match Track(c, q, before, t)
         case None => None
         case Some(p) => Some(Progress(f.op, p.earlier && p.last, ok, slot))
  }

  predicate Addressed(trace: seq<Event>) {
    forall i :: 0 <= i < |trace| && trace[i].Sent? ==> trace[i].frame.transaction == trace[i].transaction
  }

  // ---- The slot and the frames of one transaction ----

  /** Another transaction's frame leaves a slot of this transaction as it was, or takes it away. */
  lemma ServeOther(c: Config, q: Peer, slot: Upload, f: Frame, t: nat)
    requires t != 0 && f.transaction != t && Serve(c, q, slot, f).slot.transaction == t
    ensures Serve(c, q, slot, f).slot == slot
  {}

  lemma ServeOwn(c: Config, q: Peer, slot: Upload, f: Frame, t: nat)
    requires t != 0 && f.transaction == t && Observes(f) && Serve(c, q, slot, f).ok
    ensures f.op == ObservationBegin ==> Take(c, NO_UPLOAD, f) == Some(Serve(c, q, slot, f).slot)
    ensures f.op == ObservationChunk ==> slot.transaction == t && Take(c, slot, f) == Some(Serve(c, q, slot, f).slot)
    ensures f.op == ObservationEnd ==> slot.transaction == t && Serve(c, q, slot, f).slot == NO_UPLOAD
  {}

  /** With every frame of a transaction taken, a slot that is its own holds exactly those frames put together. */
  lemma {:induction false} SlotFollows(c: Config, q: Peer, trace: seq<Event>, t: nat)
    requires t != 0 && Addressed(trace) && Track(c, q, trace, t).Some?
    requires var p := Track(c, q, trace, t).value; p.earlier && p.last
    requires SlotAfter(c, q, trace).transaction == t
    ensures Uploaded(c, trace, t) == Some(SlotAfter(c, q, trace))
  {
    hide Serve, Take;
    var before, e := trace[..|trace| - 1], trace[|trace| - 1];
    assert Addressed(before);
    if e.Sent? && Observes(e.frame) {
      if e.transaction == t {
        ServeOwn(c, q, SlotAfter(c, q, before), e.frame, t);
        if e.frame.op == ObservationChunk {
          SlotFollows(c, q, before, t);
        }
      } else {
        ServeOther(c, q, SlotAfter(c, q, before), e.frame, t);
        SlotFollows(c, q, before, t);
      }
    } else {
      SlotFollows(c, q, before, t);
    }
  }

  /** What the coordinator held when it took the end of an observation is what its frames put together. */
  lemma {:induction false} EndFollows(c: Config, q: Peer, trace: seq<Event>, t: nat)
    requires t != 0 && Addressed(trace) && Track(c, q, trace, t).Some?
    requires var p := Track(c, q, trace, t).value; p.op == ObservationEnd && p.earlier && p.last
    ensures Uploaded(c, trace, t) == Some(Track(c, q, trace, t).value.met)
  {
    hide Serve, Take;
    var before, e := trace[..|trace| - 1], trace[|trace| - 1];
    assert Addressed(before);
    if e.transaction == t && e.Sent? && Observes(e.frame) {
      ServeOwn(c, q, SlotAfter(c, q, before), e.frame, t);
      SlotFollows(c, q, before, t);
    } else {
      EndFollows(c, q, before, t);
    }
  }

  // ---- Runs with honest answers ----

  /** An answer to an outstanding observation request says whether the coordinator took the frame. */
  predicate HonestAnswer(c: Config, q: Peer, s: State, input: Input) {
    input.Receive? && input.frame.Some? && input.frame.value.request in s.pending && Observes(input.frame.value) ==>
      var f := input.frame.value;
      var progress := Track(c, q, s.trace, s.pending[f.request].transaction);
      progress.Some? ==> (f.failed <==> !progress.value.last)
  }

  ghost predicate HonestTurns(c: Config, q: Peer, s: State, turns: seq<Turn>)
    requires Inv(c, s)
    decreases |turns|
  {
    if turns == [] then true
    else
      StepKeeps(c, s, turns[0].input, turns[0].world);
      && HonestAnswer(c, q, s, turns[0].input)
      && HonestTurns(c, q, Step(c, s, turns[0].input, turns[0].world), turns[1..])
  }

  /** Everything this job sent of its observation before the outstanding request was taken. */
  predicate Tracked(c: Config, q: Peer, trace: seq<Event>, t: nat, j: Job) {
    Observing(j) ==>
      && Track(c, q, trace, t).Some?
      && var p := Track(c, q, trace, t).value; p.earlier && p.op == OpOf(j.phase)
  }

  ghost predicate TrackedBut(c: Config, q: Peer, s: State, handled: set<nat>) {
    Addressed(s.trace) && forall t :: t in s.jobs && t !in handled ==> Tracked(c, q, s.trace, t, s.jobs[t])
  }

  /** A handled job that may send the next frame of its observation: all it sent was taken. */
  predicate MaySend(c: Config, q: Peer, s: State, t: nat)
    requires t in s.jobs
  {
    Observing(s.jobs[t]) && s.jobs[t].phase != ObserveBegin ==>
      && Track(c, q, s.trace, t).Some?
      && var p := Track(c, q, s.trace, t).value; p.earlier && p.last
  }

  lemma TrackStep(c: Config, q: Peer, trace: seq<Event>, e: Event, t: nat)
    ensures e.transaction != t || !e.Sent? || !Observes(e.frame) ==>
              Track(c, q, trace + [e], t) == Track(c, q, trace, t)
    ensures e.transaction == t && e.Sent? && Observes(e.frame) ==>
              Track(c, q, trace + [e], t) == Follow(c, q, trace, t, e.frame)
  {
    hide Follow;
    assert (trace + [e])[..|trace|] == trace;
  }

  lemma TrackedNote(c: Config, q: Peer, s: State, e: Event)
    requires TrackedBut(c, q, s, {e.transaction}) && (e.Sent? ==> e.frame.transaction == e.transaction)
    ensures TrackedBut(c, q, Note(s, e), {e.transaction})
  {
    hide Track;
    var u := Note(s, e);
    forall t | t in u.jobs && t !in {e.transaction} ensures Tracked(c, q, u.trace, t, u.jobs[t]) {
      TrackStep(c, q, s.trace, e, t);
    }
  }

  lemma TrackedPut(c: Config, q: Peer, s: State, t: nat, k: Job)
    requires TrackedBut(c, q, s, {t})
    ensures TrackedBut(c, q, PutJob(s, t, k), {t})
  {
    hide Tracked;
  }

  lemma TrackedDrop(c: Config, q: Peer, s: State, ts: set<nat>, handled: set<nat>)
    requires TrackedBut(c, q, s, handled) && handled <= ts
    ensures TrackedBut(c, q, Drop(s, ts), {})
  {
    hide Tracked;
  }

  lemma TrackedFields(c: Config, q: Peer, s: State, u: State, handled: set<nat>)
    requires TrackedBut(c, q, s, handled) && u.jobs == s.jobs && u.trace == s.trace
    ensures TrackedBut(c, q, u, handled)
  {}

  predicate SentOne(s: State, u: State, t: nat, f: Frame)
    requires t in s.jobs
  {
    && f.transaction == t && f.op == OpOf(s.jobs[t].phase) && u.trace == s.trace + [Sent(t, f)]
    && u.jobs == s.jobs[t := Advanced(s.jobs[t])]
  }

  lemma RequestShape(s: State, frame: Frame, accepts: bool)
    ensures var o := Request(s, frame, accepts);
            && o.state.jobs == s.jobs
            && o.state.trace == if o.ok then s.trace + [Sent(frame.transaction, frame.(request := s.sequence + 1))]
                                else s.trace
  {}

  lemma OthersKept(jobs: map<nat, Job>, t: nat, k: Job)
    ensures jobs[t := k] - {t} == jobs - {t}
  {}

  lemma SendNextShape(c: Config, s: State, t: nat, accepts: bool)
    requires Sendable(s, t) && NextFrame(c, t, s.jobs[t]).Some?
    ensures var o, f := SendNext(c, s, t, accepts), NextFrame(c, t, s.jobs[t]).value.(request := s.sequence + 1);
            && (o.ok ==> SentOne(s, o.state, t, f))
            && (!o.ok ==> o.state.jobs - {t} == s.jobs - {t} && o.state.trace == s.trace)
  {
    var frame, k := NextFrame(c, t, s.jobs[t]).value, Advanced(s.jobs[t]);
    FrameOp(c, t, s.jobs[t]);
    OthersKept(s.jobs, t, k);
    RequestShape(PutJob(s, t, k), frame, accepts);
    hide NextFrame, Request, Advanced, OpOf;
  }

  /** What sending does to the jobs and the trace: the job is gone, or exactly its frame is sent. */
  lemma SendShape(c: Config, s: State, t: nat, accepts: bool) returns (f: Frame)
    requires Sendable(s, t)
    ensures var u := SendOrFail(c, s, t, accepts);
            (u.jobs == s.jobs - {t} && u.trace == s.trace) || SentOne(s, u, t, f)
  {
    var next := NextFrame(c, t, s.jobs[t]);
    f := Blank(Fetch, t);
    if next.Some? {
      f := next.value.(request := s.sequence + 1);
      SendNextShape(c, s, t, accepts);
      hide NextFrame, Without, SendNext, SentOne;
    } else {
      hide NextFrame, Without, Request;
    }
  }

  lemma FrameOp(c: Config, t: nat, j: Job)
    requires j.sent <= |j.observation| && NextFrame(c, t, j).Some?
    ensures var f := NextFrame(c, t, j).value; f.transaction == t && f.op == OpOf(j.phase)
  {}

  lemma TrackedSend(c: Config, q: Peer, s: State, t: nat, accepts: bool)
    requires Sendable(s, t) && TrackedBut(c, q, s, {t}) && MaySend(c, q, s, t)
    ensures TrackedBut(c, q, SendOrFail(c, s, t, accepts), {})
  {
    var f := SendShape(c, s, t, accepts);
    hide SendOrFail, Track, Serve;
    var u := SendOrFail(c, s, t, accepts);
    if SentOne(s, u, t, f) {
      TrackedNote(c, q, s, Sent(t, f));
      TrackStep(c, q, s.trace, Sent(t, f), t);
      forall v | v in u.jobs ensures Tracked(c, q, u.trace, v, u.jobs[v]) {
        assert v == t || v in s.jobs;
      }
    }
  }

  lemma AppliedTracked(c: Config, q: Peer, s: State, t: nat, f: Frame, p: Pending)
    requires t in s.jobs && Matches(p, s.jobs[t]) && f.op == p.op && TrackedBut(c, q, s, {t})
    requires Tracked(c, q, s.trace, t, s.jobs[t])
    requires Observes(f) && Track(c, q, s.trace, t).Some? ==> Track(c, q, s.trace, t).value.last
    ensures var o := ApplyResponse(c, s, t, f, p);
            && (o.ok ==> t in o.state.jobs && TrackedBut(c, q, o.state, {t}) && MaySend(c, q, o.state, t))
            && (!o.ok ==> TrackedBut(c, q, o.state, {}))
  {
    hide Track, Without, Verified;
    TrackedDrop(c, q, s, {t}, {t});
    var o := ApplyResponse(c, s, t, f, p);
    if t in o.state.jobs {
      TrackedPut(c, q, s, t, o.state.jobs[t]);
    }
  }

  lemma ResponseTracked(c: Config, q: Peer, s: State, f: Frame, w: World)
    requires Inv(c, s) && TrackedBut(c, q, s, {}) && HonestAnswer(c, q, s, Receive(Some(f)))
    ensures Bounded(s) && TrackedBut(c, q, ReceiveResponse(c, s, f, w), {})
  {
    InvBounded(c, s);
    hide Core, SendOrFail, Without, ApplyResponse, Track, Matches, Ready, Sendable, Tracked, MaySend;
    if f.request in s.pending {
      var p := s.pending[f.request];
      var t, u := p.transaction, s.(pending := s.pending - {f.request});
      TakeAnswer(c, s, f.request);
      TrackedFields(c, q, s, u, {});
      TrackedDrop(c, q, u, {t}, {});
      if f.transaction == t && f.op == p.op && !f.failed {
        AppliedTracked(c, q, u, t, f, p);
        AppliedSendable(c, s, f);
        var o := ApplyResponse(c, u, t, f, p);
        if o.ok {
          TrackedSend(c, q, o.state, t, w.accepts);
        }
      }
    }
  }

  lemma RefreshTracked(c: Config, q: Peer, s: State, w: World, handled: set<nat>)
    requires TrackedBut(c, q, s, handled)
    ensures TrackedBut(c, q, Refresh(s, w).state, handled)
    ensures Refresh(s, w).ok ==> Refresh(s, w).state.jobs == s.jobs
  {
    hide Tracked;
  }

  lemma BeginTracked(c: Config, q: Peer, s: State, f: Frame, w: World)
    requires TrackedBut(c, q, s, {})
    ensures TrackedBut(c, q, BeginJob(c, s, f, w), {})
  {
    RefreshTracked(c, q, s, w, {});
    hide SendOrFail, Track, Refresh, Tracked;
    var o := Refresh(s, w);
    if f.transaction != 0 && o.ok && !Refused(c, o.state, f) {
      var t, job := f.transaction, NewJob(c, f, w.clock(f.transaction));
      var e := Begun(t, job.expected, job.properties);
      assert TrackedBut(c, q, o.state, {t});
      TrackedPut(c, q, o.state, t, job);
      TrackedNote(c, q, PutJob(o.state, t, job), e);
      TrackedSend(c, q, Note(PutJob(o.state, t, job), e), t, w.accepts);
    }
  }

  lemma CheckTracked(c: Config, q: Peer, s: State, t: nat, w: World)
    requires Sendable(s, t) && TrackedBut(c, q, s, {})
    ensures TrackedBut(c, q, CheckJobParts(c, s, t, w), {})
  {
    hide SendOrFail, Track, Tracked, Without;
    assert TrackedBut(c, q, s, {t});
    TrackedDrop(c, q, s, {t}, {});
    var job := s.jobs[t];
    var k := job.(phase := if w.held then Fetching else ReportDependency, missing := w.missing);
    TrackedPut(c, q, s, t, k);
    var u, e := PutJob(s, t, k), PartsReady(t, PartsOf(job));
    TrackedNote(c, q, u, e);
    TrackedSend(c, q, if w.held then Note(u, e) else u, t, w.accepts);
  }

  lemma LoadTracked(c: Config, q: Peer, s: State, t: nat, hash: Digest, bytes: seq<byte>, w: World)
    requires TrackedBut(c, q, s, {t})
    ensures TrackedBut(c, q, LoadContent(s, t, hash, bytes, w).state, {t})
    ensures LoadContent(s, t, hash, bytes, w).state.jobs == s.jobs
  {
    hide Track, Tracked;
    var known := hash in s.imported;
    var e := Loaded(t, hash, bytes, s.approved,
                    if known then Inspects(s.imported[hash], w.inspected) else Imports(w.loaded));
    TrackedNote(c, q, s, e);
    if !known && w.loaded.Some? {
      TrackedFields(c, q, Note(s, e), Note(s, e).(imported := s.imported[hash := w.loaded.value]), {t});
    }
  }

  lemma ImportTracked(c: Config, q: Peer, s: State, t: nat, w: World)
    requires t in s.jobs && s.jobs[t].sent == 0 && TrackedBut(c, q, s, {})
    ensures TrackedBut(c, q, ImportJob(c, s, t, w), {})
  {
    RefreshTracked(c, q, s, w, {});
    hide SendOrFail, Track, Tracked, Drop, Refresh, LoadContent;
    var r := Refresh(s, w);
    var d := c.digest(s.jobs[t].bytes);
    if r.ok {
      assert TrackedBut(c, q, r.state, {t});
      TrackedDrop(c, q, r.state, {t}, {});
      if d.Some? {
        LoadTracked(c, q, r.state, t, d.value, s.jobs[t].bytes, w);
        var o := LoadContent(r.state, t, d.value, s.jobs[t].bytes, w);
        TrackedDrop(c, q, o.state, {t}, {t});
        if w.encoded.Some? {
          var k := s.jobs[t].(observation := w.encoded.value, bytes := [], phase := ObserveBegin);
          TrackedPut(c, q, o.state, t, k);
          TrackedSend(c, q, PutJob(o.state, t, k), t, w.accepts);
        }
      }
    }
  }

  lemma WorkTracked(c: Config, q: Peer, s: State, w: World)
    requires Inv(c, s) && TrackedBut(c, q, s, {})
    ensures Bounded(s) && TrackedBut(c, q, Work(c, s, w), {})
  {
    InvBounded(c, s);
    hide Inv, CheckJobParts, ImportJob, TrackedBut;
    if !Idle(s) {
      var t := FirstWaiting(s);
      if s.jobs[t].phase == CheckParts {
        CheckTracked(c, q, s, t, w);
      } else {
        ImportTracked(c, q, s, t, w);
      }
    }
  }

  lemma FrameTracked(c: Config, q: Peer, s: State, f: Frame, w: World)
    requires Inv(c, s) && TrackedBut(c, q, s, {}) && HonestAnswer(c, q, s, Receive(Some(f)))
    ensures Bounded(s) && TrackedBut(c, q, ReceiveFrame(c, s, Some(f), w), {})
  {
    hide *;
    ResponseTracked(c, q, s, f, w);
    BeginTracked(c, q, s, f, w);
    TrackedDrop(c, q, s, {f.transaction}, {});
    FrameCases(c, s, f, w);
  }

  lemma UpdateTracked(c: Config, q: Peer, s: State, w: World)
    requires Inv(c, s) && TrackedBut(c, q, s, {})
    ensures Bounded(s) && TrackedBut(c, q, UpdateAll(c, s, w), {})
  {
    InvBounded(c, s);
    TrackedDrop(c, q, s, Late(s, w.clock), {});
    DropKeeps(c, s, Late(s, w.clock), {});
    WorkTracked(c, q, Expire(s, w.clock), w);
    hide Inv, Bounded, Drop, Work, TrackedBut;
  }

  lemma StepTracked(c: Config, q: Peer, s: State, input: Input, w: World)
    requires Inv(c, s) && TrackedBut(c, q, s, {}) && HonestAnswer(c, q, s, input)
    ensures Bounded(s) && TrackedBut(c, q, Step(c, s, input, w), {})
  {
    InvBounded(c, s);
    hide Inv, Bounded, UpdateAll, ReceiveResponse, BeginJob, Drop, HonestAnswer, TrackedBut;
    match input
    case Receive(frame) =>
      if frame.Some? {
        FrameTracked(c, q, s, frame.value, w);
      }
    case Update => UpdateTracked(c, q, s, w);
    case Fence => FenceTracked(c, q, s);
  }

  lemma FenceTracked(c: Config, q: Peer, s: State)
    requires TrackedBut(c, q, s, {})
    ensures TrackedBut(c, q, Fenced(s), {})
  {}

  lemma {:induction false} RunTracked(c: Config, q: Peer, s: State, turns: seq<Turn>)
    requires Inv(c, s) && TrackedBut(c, q, s, {}) && HonestTurns(c, q, s, turns)
    ensures TrackedBut(c, q, Run(c, s, turns), {})
    decreases |turns|
  {
    hide Inv, Step, TrackedBut, HonestAnswer;
    if turns != [] {
      StepKeeps(c, s, turns[0].input, turns[0].world);
      StepTracked(c, q, s, turns[0].input, turns[0].world);
      RunTracked(c, q, Step(c, s, turns[0].input, turns[0].world), turns[1..]);
    }
  }

  /** A run of a process from its start in which every answer about an observation is honest. */
  ghost predicate HonestRun(c: Config, q: Peer, approved: Approvals, turns: seq<Turn>) {
    InitialInv(c, approved);
    HonestTurns(c, q, Initial(approved), turns)
  }

  lemma HonestReach(c: Config, q: Peer, approved: Approvals, turns: seq<Turn>)
    requires HonestRun(c, q, approved, turns)
    ensures TrackedBut(c, q, Reach(c, approved, turns), {})
  {
    InitialInv(c, approved);
    hide Run, Inv;
    RunTracked(c, q, Initial(approved), turns);
  }

  /**
    In any run with honest answers, whatever else uses the one upload slot: when the coordinator takes the end of a
    job's observation, what it holds is exactly that observation, under its transaction and its digest.
  */
  lemma ObservationTaken(c: Config, q: Peer, approved: Approvals, turns: seq<Turn>, t: nat)
    requires HonestRun(c, q, approved, turns)
    requires var s := Reach(c, approved, turns); t in s.jobs && s.jobs[t].phase == ObserveEnd
    ensures var s := Reach(c, approved, turns);
            var o, progress := s.jobs[t].observation, Track(c, q, s.trace, t);
            && c.digest(o).Some? && progress.Some?
            && (progress.value.last && c.digest(o).value != ZERO ==>
                  progress.value.met == Upload(t, |o|, c.digest(o).value, o))
  {
    var s := Reach(c, approved, turns);
    HonestReach(c, q, approved, turns);
    ObservationSentWhole(c, approved, turns, t);
    JobNumber(c, s, t);
    assert Tracked(c, q, s.trace, t, s.jobs[t]);
    hide Inv, Reach, Track, Uploaded, HonestRun;
    if Track(c, q, s.trace, t).value.last {
      EndFollows(c, q, s.trace, t);
    }
  }

  lemma JobNumber(c: Config, s: State, t: nat)
    requires Inv(c, s) && t in s.jobs
    ensures t != 0
  {
    hide RequestsOk, OneEach, LoadsOk;
  }

  // ---- Completion ----

  /** A coordinator that lets this observation through: it turns away and drops nothing, decodes it and settles it. */
  ghost predicate Cooperates(q: Peer, observation: seq<byte>) {
    (forall r: nat :: q.gate(r) == Pass && !q.dropped(r) && q.settles(r)) && q.readable(observation)
  }

  /** A job in the middle of its observation, with its request out and everything it sent in the coordinator's slot. */
  ghost predicate UploadingTo(c: Config, q: Peer, s: State, t: nat, r: nat, hash: Digest) {
    && t in s.jobs && t != 0 && (s.jobs[t].phase == ObserveBegin || s.jobs[t].phase == ObserveChunk)
    && s.jobs[t].sent <= |s.jobs[t].observation| && 292 <= |s.jobs[t].observation| <= 65536
    && (s.jobs[t].phase == ObserveBegin ==> s.jobs[t].sent == 0)
    && r in s.pending && s.pending[r].transaction == t && s.pending[r].op == OpOf(s.jobs[t].phase)
    && c.digest(s.jobs[t].observation) == Some(hash) && hash != ZERO
    && SlotAfter(c, q, s.trace)
       == Upload(t, |s.jobs[t].observation|, hash, s.jobs[t].observation[..s.jobs[t].sent])
    && Track(c, q, s.trace, t).Some? && Track(c, q, s.trace, t).value.earlier && Track(c, q, s.trace, t).value.last
  }

  /** So is every job whose frames were all taken, while the slot is its transaction's. */
  lemma TakenUploads(c: Config, q: Peer, s: State, t: nat, r: nat, hash: Digest)
    requires Inv(c, s) && TrackedBut(c, q, s, {}) && r in s.pending && s.pending[r].transaction == t
    requires t in s.jobs && (s.jobs[t].phase == ObserveBegin || s.jobs[t].phase == ObserveChunk)
    requires c.digest(s.jobs[t].observation) == Some(hash) && hash != ZERO
    requires Track(c, q, s.trace, t).Some? && Track(c, q, s.trace, t).value.last
    requires SlotAfter(c, q, s.trace).transaction == t
    ensures UploadingTo(c, q, s, t, r, hash)
  {
    JobNumber(c, s, t);
    assert PendingOk(s, r, {});
    assert Tracked(c, q, s.trace, t, s.jobs[t]);
    hide Track, SlotAfter, Uploaded, OneEach, RequestsOk, LoadsOk, Verified, Opened, PartsHeld;
    SlotFollows(c, q, s.trace, t);
  }

  function Answer(r: nat, t: nat, op: Op): Frame {
    Frame(op, false, r, t, 0, 0, ZERO, NO_KEY, [])
  }

  /** The state after a handled job sent its next observation frame. */
  function SentNext(c: Config, s: State, t: nat): State
    requires Sendable(s, t)
  {
    var j := s.jobs[t];
    match NextFrame(c, t, j)
    case None => s
    case Some(frame) =>
      var f := frame.(request := s.sequence + 1);
      WithRequest(Note(PutJob(s, t, Advanced(j)), Sent(t, f)), Pending(t, f.op, f.offset))
  }

  /** The request of a job that goes on with its observation, or ends it, always goes out. */
  lemma ObservationGoes(c: Config, s: State, t: nat)
    requires Sendable(s, t) && |s.pending| <= 1 && s.sequence < MAX_SEQUENCE
    requires s.jobs[t].phase == ObserveChunk || s.jobs[t].phase == ObserveEnd
    ensures SendOrFail(c, s, t, true) == SentNext(c, s, t)
  {
    var frame := NextFrame(c, t, s.jobs[t]).value;
    hide Request, Drop;
    RequestGoes(PutJob(s, t, Advanced(s.jobs[t])), frame);
  }

  lemma SlotStep(c: Config, q: Peer, trace: seq<Event>, t: nat, f: Frame)
    requires Observes(f)
    ensures SlotAfter(c, q, trace + [Sent(t, f)]) == Serve(c, q, SlotAfter(c, q, trace), f).slot
  {
    assert (trace + [Sent(t, f)])[..|trace|] == trace;
  }

  /** The next chunk is taken and makes the upload the longer beginning of the observation. */
  lemma ChunkTaken(c: Config, q: Peer, j: Job, t: nat, hash: Digest, f: Frame)
    requires t != 0 && j.sent < |j.observation| && Cooperates(q, j.observation)
    requires f.op == ObservationChunk && f.transaction == t && f.offset == j.sent
    requires f.data == j.observation[j.sent..ChunkEnd(j)]
    ensures var slot := Upload(t, |j.observation|, hash, j.observation[..j.sent]);
            Serve(c, q, slot, f) == Taken(Upload(t, |j.observation|, hash, j.observation[..ChunkEnd(j)]), true)
  {
    assert j.observation[..j.sent] + j.observation[j.sent..ChunkEnd(j)] == j.observation[..ChunkEnd(j)];
    assert q.gate(f.request) == Pass && !q.dropped(f.request);
  }

  lemma EndTaken(c: Config, q: Peer, o: seq<byte>, t: nat, hash: Digest, f: Frame)
    requires t != 0 && Cooperates(q, o) && c.digest(o) == Some(hash)
    requires f.op == ObservationEnd && f.transaction == t
    ensures Serve(c, q, Upload(t, |o|, hash, o), f) == Taken(NO_UPLOAD, true)
  {
    assert q.gate(f.request) == Pass && !q.dropped(f.request) && q.settles(f.request);
  }

  /** The end is out, and the coordinator took it while it held exactly the observation. */
  predicate EndingWith(c: Config, q: Peer, s: State, t: nat, r: nat, o: seq<byte>, hash: Digest) {
    && t in s.jobs && s.jobs[t].phase == ObserveEnd
    && r in s.pending && s.pending[r].transaction == t && s.pending[r].op == ObservationEnd
    && Track(c, q, s.trace, t) == Some(Progress(ObservationEnd, true, true, Upload(t, |o|, hash, o)))
  }

  ghost predicate OneStepOn(c: Config, q: Peer, s: State, u: State, t: nat, hash: Digest)
    requires t in s.jobs
  {
    var o, sent := s.jobs[t].observation, s.jobs[t].sent;
    && Inv(c, u) && u.approved == s.approved && u.sequence == s.sequence + 1
    && (forall v :: v in u.jobs && v != t ==> v in s.jobs && u.jobs[v] == s.jobs[v])
    && (forall v :: v in s.jobs && v != t ==> v in u.jobs)
    && t in u.jobs && u.jobs[t].observation == o
    && if sent < |o| then u.jobs[t].sent == Min(sent + CHUNK, |o|) && UploadingTo(c, q, u, t, u.sequence, hash)
       else EndingWith(c, q, u, t, u.sequence, o, hash)
  }

  /** A handled job whose frames so far are in the coordinator's slot. */
  predicate InSlot(c: Config, q: Peer, s: State, t: nat, hash: Digest) {
    && t in s.jobs && t != 0 && s.jobs[t].sent <= |s.jobs[t].observation| && 292 <= |s.jobs[t].observation| <= 65536
    && c.digest(s.jobs[t].observation) == Some(hash) && hash != ZERO
    && SlotAfter(c, q, s.trace)
       == Upload(t, |s.jobs[t].observation|, hash, s.jobs[t].observation[..s.jobs[t].sent])
    && Track(c, q, s.trace, t).Some? && Track(c, q, s.trace, t).value.earlier && Track(c, q, s.trace, t).value.last
  }

  lemma ChunkSent(c: Config, q: Peer, s: State, t: nat, hash: Digest)
    requires InSlot(c, q, s, t, hash) && s.jobs[t].phase == ObserveChunk && s.jobs[t].sent < |s.jobs[t].observation|
    requires Cooperates(q, s.jobs[t].observation)
    ensures var u := SentNext(c, s, t); UploadingTo(c, q, u, t, u.sequence, hash)
  {
    var j := s.jobs[t];
    var next := NextFrame(c, t, j).value.(request := s.sequence + 1);
    SlotStep(c, q, s.trace, t, next);
    TrackStep(c, q, s.trace, Sent(t, next), t);
    ChunkTaken(c, q, j, t, hash, next);
    hide SlotAfter, Track, Serve, Cooperates;
  }

  lemma EndSent(c: Config, q: Peer, s: State, t: nat, hash: Digest)
    requires InSlot(c, q, s, t, hash) && s.jobs[t].phase == ObserveEnd && s.jobs[t].sent == |s.jobs[t].observation|
    requires Cooperates(q, s.jobs[t].observation)
    ensures var u := SentNext(c, s, t); EndingWith(c, q, u, t, u.sequence, s.jobs[t].observation, hash)
  {
    var j := s.jobs[t];
    var next := NextFrame(c, t, j).value.(request := s.sequence + 1);
    SlotStep(c, q, s.trace, t, next);
    TrackStep(c, q, s.trace, Sent(t, next), t);
    assert j.observation[..j.sent] == j.observation;
    EndTaken(c, q, j.observation, t, hash, next);
    hide SlotAfter, Track, Serve, Cooperates;
  }

  /** The job once its last frame was answered. */
  function GoesOn(j: Job): Job {
    j.(phase := if j.sent < |j.observation| then ObserveChunk else ObserveEnd)
  }

  lemma ObservationApplies(c: Config, q: Peer, s: State, t: nat, r: nat, hash: Digest)
    requires UploadingTo(c, q, s, t, r, hash)
    ensures t in s.jobs && r in s.pending
    ensures var j, u := s.jobs[t], s.(pending := s.pending - {r});
            var k, f := GoesOn(j), Answer(r, t, OpOf(j.phase));
            && f.request == r && f.transaction == s.pending[r].transaction == t && f.op == s.pending[r].op && !f.failed
            && f.op != DependencyFailure
            && ApplyResponse(c, u, t, f, s.pending[r]) == Outcome(PutJob(u, t, k), true)
            && InSlot(c, q, PutJob(u, t, k), t, hash)
            && PutJob(u, t, k).jobs[t] == k && PutJob(u, t, k).sequence == s.sequence
            && k.sent == j.sent && k.observation == j.observation && k.sent <= |k.observation|
            && k.phase == if j.sent < |j.observation| then ObserveChunk else ObserveEnd
  {
    hide SlotAfter, Track;
  }

  /** One honest answer brings the next chunk, or the end. */
  lemma ObservationStep(c: Config, q: Peer, s: State, t: nat, r: nat, hash: Digest, w: World)
    requires Inv(c, s) && s.approved != {} && r != 0 && UploadingTo(c, q, s, t, r, hash)
    requires t in s.jobs && Cooperates(q, s.jobs[t].observation) && w.accepts && s.sequence < MAX_SEQUENCE
    ensures Bounded(s)
    ensures OneStepOn(c, q, s, ReceiveFrame(c, s, Some(Answer(r, t, OpOf(s.jobs[t].phase))), w), t, hash)
  {
    ObservationApplies(c, q, s, t, r, hash);
    hide *;
    var j, u := s.jobs[t], s.(pending := s.pending - {r});
    var f, k := Answer(r, t, OpOf(j.phase)), GoesOn(j);
    AnswerRoutes(c, s, f, w);
    var x := PutJob(u, t, k);
    AppliedNext(c, Outcome(x, true), t);
    CapacityFree(c, x, t);
    ObservationGoes(c, x, t);
    if j.sent < |j.observation| {
      ChunkSent(c, q, x, t, hash);
    } else {
      EndSent(c, q, x, t, hash);
    }
    StepOn(c, q, s, u, t, hash);
  }

  lemma StepOn(c: Config, q: Peer, s: State, u: State, t: nat, hash: Digest)
    requires t in s.jobs && u == s.(pending := u.pending) && Sendable(PutJob(u, t, GoesOn(s.jobs[t])), t)
    requires var k := GoesOn(s.jobs[t]);
             var v := SentNext(c, PutJob(u, t, k), t);
             && Inv(c, v)
             && if k.sent < |k.observation| then UploadingTo(c, q, v, t, v.sequence, hash)
                else EndingWith(c, q, v, t, v.sequence, k.observation, hash)
    ensures OneStepOn(c, q, s, SentNext(c, PutJob(u, t, GoesOn(s.jobs[t])), t), t, hash)
  {
    hide Inv, UploadingTo, EndingWith;
  }

  /** The last answer ends the job. */
  lemma ObservationEnds(c: Config, q: Peer, s: State, t: nat, r: nat, o: seq<byte>, hash: Digest, w: World)
    requires Inv(c, s) && s.approved != {} && r != 0 && EndingWith(c, q, s, t, r, o, hash)
    ensures Bounded(s)
    ensures var u := ReceiveFrame(c, s, Some(Answer(r, t, ObservationEnd)), w);
            Inv(c, u) && u.jobs == s.jobs - {t} && u.trace == s.trace
  {
    AnswerRoutes(c, s, Answer(r, t, ObservationEnd), w);
    hide Inv, Answered, Applied, Track, Bounded;
  }

  lemma Uploads(c: Config, q: Peer, s: State, t: nat, r: nat, hash: Digest)
    requires UploadingTo(c, q, s, t, r, hash)
    ensures t in s.jobs && !Waits(s.jobs[t]) && s.jobs[t].sent <= |s.jobs[t].observation|
    ensures r in s.pending && s.pending[r].transaction == t && s.pending[r].op == OpOf(s.jobs[t].phase)
  {}

  /** What the step leaves for the next one. */
  lemma StepLeaves(c: Config, q: Peer, s: State, u: State, t: nat, hash: Digest)
    requires t in s.jobs && OneStepOn(c, q, s, u, t, hash) && s.jobs[t].sent <= |s.jobs[t].observation|
    ensures Inv(c, u) && u.approved == s.approved && u.sequence == s.sequence + 1
    ensures t in u.jobs && u.jobs[t].observation == s.jobs[t].observation
    ensures var n := |s.jobs[t].observation| - s.jobs[t].sent;
            if n > 0 then
              && UploadingTo(c, q, u, t, u.sequence, hash)
              && 0 <= |u.jobs[t].observation| - u.jobs[t].sent < n
              && Chunks(|u.jobs[t].observation| - u.jobs[t].sent) + 1 == Chunks(n)
            else EndingWith(c, q, u, t, u.sequence, s.jobs[t].observation, hash)
  {
    hide Inv, UploadingTo, EndingWith;
  }

  function ObservationAnswers(): Answers {
    (r: nat, p: Pending) => Answer(r, p.transaction, p.op)
  }

  lemma ObservationAnswer(r: nat, p: Pending)
    ensures ObservationAnswers()(r, p) == Answer(r, p.transaction, p.op) && Answer(r, p.transaction, p.op).request == r
  {}

  /** A frame of another transaction that reaches its operation is refused while the slot is taken. */
  lemma ServeRefused(c: Config, q: Peer, slot: Upload, f: Frame, t: nat)
    requires t != 0 && slot.transaction == t && f.transaction != t && q.gate(f.request) == Pass && !q.dropped(f.request)
    ensures Serve(c, q, slot, f).slot == slot
  {}

  /** What others send leaves the slot that a transaction holds, and the record of its frames. */
  lemma {:induction false} OthersKeepSlot(c: Config, q: Peer, o: seq<byte>, before: seq<Event>, after: seq<Event>,
                                          t: nat)
    requires Grown(before, after, t) && Cooperates(q, o) && t != 0 && SlotAfter(c, q, before).transaction == t
    ensures SlotAfter(c, q, after) == SlotAfter(c, q, before)
    decreases |after|
  {
    hide Serve;
    if |after| > |before| {
      var shorter, e := after[..|after| - 1], after[|after| - 1];
      OthersKeepSlot(c, q, o, before, shorter, t);
      if e.Sent? {
        assert q.gate(e.frame.request) == Pass && !q.dropped(e.frame.request);
        ServeRefused(c, q, SlotAfter(c, q, shorter), e.frame, t);
      }
    } else {
      assert after == before;
    }
  }

  lemma {:induction false} OthersKeepTrack(c: Config, q: Peer, before: seq<Event>, after: seq<Event>, t: nat)
    requires Grown(before, after, t)
    ensures Track(c, q, after, t) == Track(c, q, before, t)
    decreases |after|
  {
    hide Follow;
    if |after| > |before| {
      OthersKeepTrack(c, q, before, after[..|after| - 1], t);
    } else {
      assert after == before;
    }
  }

  lemma UploadingKept(c: Config, q: Peer, s: State, u: State, t: nat, r: nat, hash: Digest)
    requires UploadingTo(c, q, s, t, r, hash) && Cooperates(q, s.jobs[t].observation) && s.approved != {}
    requires Untouched(s, u, t, 1)
    ensures UploadingTo(c, q, u, t, r, hash) && u.jobs[t] == s.jobs[t]
    ensures u.approved != {} && u.sequence <= s.sequence + 1
  {
    OthersKeepSlot(c, q, s.jobs[t].observation, s.trace, u.trace, t);
    OthersKeepTrack(c, q, s.trace, u.trace, t);
    hide SlotAfter, Track, Cooperates;
  }

  lemma EndingKept(c: Config, q: Peer, s: State, u: State, t: nat, r: nat, o: seq<byte>, hash: Digest)
    requires EndingWith(c, q, s, t, r, o, hash) && Untouched(s, u, t, 1) && s.approved != {}
    ensures EndingWith(c, q, u, t, r, o, hash) && u.approved != {}
  {
    OthersKeepTrack(c, q, s.trace, u.trace, t);
    hide Track;
  }

  lemma Ends(c: Config, q: Peer, s: State, t: nat, r: nat, o: seq<byte>, hash: Digest)
    requires EndingWith(c, q, s, t, r, o, hash)
    ensures t in s.jobs && !Waits(s.jobs[t])
    ensures r in s.pending && s.pending[r].transaction == t && s.pending[r].op == ObservationEnd
    ensures Track(c, q, s.trace, t) == Some(Progress(ObservationEnd, true, true, Upload(t, |o|, hash, o)))
  {}

  /** The job is done, and the coordinator took exactly this observation. */
  predicate Attested(c: Config, q: Peer, u: State, t: nat, o: seq<byte>, hash: Digest) {
    && t !in u.jobs
    && Track(c, q, u.trace, t) == Some(Progress(ObservationEnd, true, true, Upload(t, |o|, hash, o)))
  }

  lemma {:induction false} EndCompletes(c: Config, q: Peer, s: State, t: nat, r: nat, o: seq<byte>, hash: Digest,
                                        turns: seq<Turn>)
    requires Inv(c, s) && s.approved != {} && EndingWith(c, q, s, t, r, o, hash)
    requires Interleaved(c, s, turns, t, ObservationAnswers(), 1)
    ensures Attested(c, q, Run(c, s, turns), t, o, hash)
    decreases |turns|
  {
    hide *;
    Ends(c, q, s, t, r, o, hash);
    FirstTurn(c, s, turns, t, r, ObservationAnswers(), 1);
    var turn := turns[0];
    var u := Step(c, s, turn.input, turn.world);
    if AnswersTo(s, turn, t, ObservationAnswers()) {
      ObservationAnswer(r, s.pending[r]);
      ObservationEnds(c, q, s, t, r, o, hash, turn.world);
      RunEnds(c, u, turns[1..], t, ObservationAnswers());
      NowAttested(c, q, s, u, t, o, hash);
    } else {
      EndingKept(c, q, s, u, t, r, o, hash);
      EndCompletes(c, q, u, t, r, o, hash, turns[1..]);
    }
  }

  lemma NowAttested(c: Config, q: Peer, s: State, u: State, t: nat, o: seq<byte>, hash: Digest)
    requires u.jobs == s.jobs - {t} && u.trace == s.trace
    requires Track(c, q, s.trace, t) == Some(Progress(ObservationEnd, true, true, Upload(t, |o|, hash, o)))
    ensures Attested(c, q, u, t, o, hash)
  {
    hide Track;
  }

  /**
    Answered honestly, an observation ends: its job is done, and the coordinator took exactly that observation, whatever
    else happens between the answers, the other transaction's frames for the same upload slot included.
  */
  lemma {:induction false} ObservationCompletes(c: Config, q: Peer, s: State, t: nat, r: nat, hash: Digest,
                                                turns: seq<Turn>)
    requires Inv(c, s) && s.approved != {} && UploadingTo(c, q, s, t, r, hash)
    requires Cooperates(q, s.jobs[t].observation) && s.sequence + |turns| <= MAX_SEQUENCE
    requires Interleaved(c, s, turns, t, ObservationAnswers(), Chunks(|s.jobs[t].observation| - s.jobs[t].sent) + 2)
    ensures Attested(c, q, Run(c, s, turns), t, s.jobs[t].observation, hash)
    decreases |turns|
  {
    hide *;
    Uploads(c, q, s, t, r, hash);
    var o, left := s.jobs[t].observation, |s.jobs[t].observation| - s.jobs[t].sent;
    FirstTurn(c, s, turns, t, r, ObservationAnswers(), Chunks(left) + 2);
    var turn := turns[0];
    var u := Step(c, s, turn.input, turn.world);
    if AnswersTo(s, turn, t, ObservationAnswers()) {
      ObservationAnswer(r, s.pending[r]);
      ObservationStep(c, q, s, t, r, hash, turn.world);
      StepLeaves(c, q, s, u, t, hash);
      if left > 0 {
        ObservationCompletes(c, q, u, t, u.sequence, hash, turns[1..]);
      } else {
        NoChunk();
        EndCompletes(c, q, u, t, u.sequence, o, hash, turns[1..]);
      }
    } else {
      UploadingKept(c, q, s, u, t, r, hash);
      ObservationCompletes(c, q, u, t, r, hash, turns[1..]);
    }
  }

  lemma NoChunk()
    ensures Chunks(0) == 0
  {}

  lemma EndAnswered(c: Config, q: Peer, s: State, t: nat, r: nat, o: seq<byte>, hash: Digest, w: World)
    returns (turns: seq<Turn>)
    requires Inv(c, s) && s.approved != {} && EndingWith(c, q, s, t, r, o, hash) && w.accepts
    ensures |turns| == 1 && Interleaved(c, s, turns, t, ObservationAnswers(), 1)
  {
    hide *;
    Ends(c, q, s, t, r, o, hash);
    ObservationAnswer(r, s.pending[r]);
    var turn, u := AnswerTurn(c, s, t, r, ObservationAnswers(), w);
    NoTurns(c, u, t, ObservationAnswers());
    AnswerFirst(c, s, turn, [], t, ObservationAnswers(), 0);
    turns := [turn] + [];
  }

  /** The honest answers alone are such a run. */
  lemma {:induction false} ObservationAnswered(c: Config, q: Peer, s: State, t: nat, r: nat, hash: Digest, w: World)
    returns (turns: seq<Turn>)
    requires Inv(c, s) && s.approved != {} && UploadingTo(c, q, s, t, r, hash) && w.accepts
    requires Cooperates(q, s.jobs[t].observation)
    requires s.sequence + Chunks(|s.jobs[t].observation| - s.jobs[t].sent) + 2 <= MAX_SEQUENCE
    ensures |turns| == Chunks(|s.jobs[t].observation| - s.jobs[t].sent) + 2
    ensures Interleaved(c, s, turns, t, ObservationAnswers(), |turns|)
    decreases |s.jobs[t].observation| - s.jobs[t].sent
  {
    hide *;
    Uploads(c, q, s, t, r, hash);
    var left := |s.jobs[t].observation| - s.jobs[t].sent;
    ObservationAnswer(r, s.pending[r]);
    var turn, u := AnswerTurn(c, s, t, r, ObservationAnswers(), w);
    ObservationStep(c, q, s, t, r, hash, w);
    StepLeaves(c, q, s, u, t, hash);
    if left > 0 {
      turns := ObservationAnswered(c, q, u, t, u.sequence, hash, w);
    } else {
      NoChunk();
      turns := EndAnswered(c, q, u, t, u.sequence, s.jobs[t].observation, hash, w);
    }
    AnswerFirst(c, s, turn, turns, t, ObservationAnswers(), |turns|);
    turns := [turn] + turns;
  }
}
