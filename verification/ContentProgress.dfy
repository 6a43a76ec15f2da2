/**
  How a content transaction begins, what each answer does to it, and what ends it: the exact conditions, and with them
  a whole transfer from its first event to the observation that the coordinator took.
*/
module ContentProgress {
  import opened Basics
  import opened ContentSpec
  import opened Words
  import opened ContentSafety
  import opened ContentRuns

  // ---- The request that goes out ----

  lemma Goes(c: Config, s: State, t: nat)
    requires Sendable(s, t) && |s.pending| <= 1 && s.sequence < MAX_SEQUENCE
    requires NextFrame(c, t, s.jobs[t]).Some? && NextFrame(c, t, s.jobs[t]).value.transaction == t
    ensures var frame := NextFrame(c, t, s.jobs[t]).value;
            var sent := Note(PutJob(s, t, Advanced(s.jobs[t])), Sent(t, frame.(request := s.sequence + 1)));
            SendOrFail(c, s, t, true) == WithRequest(sent, Pending(t, frame.op, frame.offset))
  {
    RequestGoes(PutJob(s, t, Advanced(s.jobs[t])), NextFrame(c, t, s.jobs[t]).value);
    hide Request, Without, NextFrame, Advanced;
  }

  lemma GoesNot(c: Config, s: State, t: nat, accepts: bool)
    requires Sendable(s, t) && (NextFrame(c, t, s.jobs[t]).None? || !accepts || s.sequence >= MAX_SEQUENCE)
    ensures t !in SendOrFail(c, s, t, accepts).jobs
  {
    hide Without, NextFrame, Advanced;
  }

  /** A handled job's next request goes out exactly when it has one, output takes it and numbers remain. */
  lemma SentExactly(c: Config, s: State, t: nat, accepts: bool)
    requires Core(c, s, {t}) && t in s.jobs && Ready(c, s.trace, t, s.jobs[t], false) && !Waits(s.jobs[t])
    ensures Sendable(s, t)
    ensures var u, frame := SendOrFail(c, s, t, accepts), NextFrame(c, t, s.jobs[t]);
            && Inv(c, u)
            && (t in u.jobs <==> frame.Some? && accepts && s.sequence < MAX_SEQUENCE)
            && (t in u.jobs ==>
                  u == WithRequest(Note(PutJob(s, t, Advanced(s.jobs[t])),
                                        Sent(t, frame.value.(request := s.sequence + 1))),
                                   Pending(t, frame.value.op, frame.value.offset)))
  {
    SendKeeps(c, s, t, accepts);
    NextFrameFits(c, s, t);
    CapacityFree(c, s, t);
    var goes := NextFrame(c, t, s.jobs[t]).Some? && accepts && s.sequence < MAX_SEQUENCE;
    hide Core, Ready, Without, Sendable, NextFrame, Advanced, Matches, SendOrFail;
    if goes {
      Goes(c, s, t);
    } else {
      GoesNot(c, s, t, accepts);
    }
  }

  // ---- The beginning ----

  /** An event that may start a transaction now. */
  predicate Admits(c: Config, s: State, f: Frame, w: World) {
    && f.request == 0 && f.op == (if c.player then LoadEvent else ValidateEvent) && f.transaction != 0
    && f.transaction !in s.jobs && |s.jobs| < 2 && s.approved != {} && w.approvals.Some?
    && (c.player ==> f.identity in w.approvals.value && MIN_PNG <= f.total <= MAX_PNG && |f.data| == 32)
  }

  /** How a job is when it begins: two minutes to live, nothing received, its first request out. */
  predicate Fresh(c: Config, u: State, f: Frame, w: World) {
    var t := f.transaction;
    && t in u.jobs
    && var j := u.jobs[t];
       && j.deadline == w.clock(t) + 120000 && j.total == f.total && j.expected == f.identity
       && j.bytes == [] && j.hashBytes == [] && j.hashTotal == 0 && j.hash == ZERO && j.observation == []
       && u.sequence in u.pending
       && if c.player then
            && j.phase == NeedDependencies && j.properties == f.data
            && u.pending[u.sequence] == Pending(t, Dependencies, 0)
          else
            j.phase == Fetching && u.pending[u.sequence] == Pending(t, Fetch, 0)
  }

  lemma AdmitsExactly(c: Config, s: State, f: Frame, w: World)
    requires Bounded(s)
    requires f.request == 0 && f.op != CancelledEvent && f.op != PublishedEvent && f.transaction !in s.jobs
    ensures var t, u := f.transaction, ReceiveFrame(c, s, Some(f), w);
            && (Admits(c, s, f, w) ==>
                  NewJob(c, f, w.clock(t)).sent == 0 && u == SendOrFail(c, Handled(c, s, f, w), t, w.accepts))
            && (!Admits(c, s, f, w) ==> t !in u.jobs)
  {
    hide SendOrFail, Bounded, ReceiveResponse;
  }

  /**
    A transaction begins exactly on an admitted event whose first request goes out, and then it is fresh: for a player
    it asks for the manifest, otherwise for the content.
  */
  lemma BeginsExactly(c: Config, s: State, f: Frame, w: World)
    requires Inv(c, s) && f.request == 0 && f.op != CancelledEvent && f.op != PublishedEvent && f.transaction !in s.jobs
    ensures Bounded(s)
    ensures var u := ReceiveFrame(c, s, Some(f), w);
            && Inv(c, u)
            && (f.transaction in u.jobs <==> Admits(c, s, f, w) && w.accepts && s.sequence < MAX_SEQUENCE)
            && (f.transaction in u.jobs ==>
                  Fresh(c, u, f, w) && u.sequence == s.sequence + 1 && u.approved == w.approvals.value
                  && u.jobs - {f.transaction} == s.jobs)
  {
    FrameKeeps(c, s, Some(f), w);
    InvBounded(c, s);
    AdmitsExactly(c, s, f, w);
    if Admits(c, s, f, w) {
      BegunSent(c, s, f, w);
    }
    hide Inv, SendOrFail, ReceiveFrame, Bounded, Admits, Refresh, NewJob, Handled, Fresh;
  }

  /** The state in which a new job is handled: its event noted, nothing sent yet. */
  function Handled(c: Config, s: State, f: Frame, w: World): State {
    var job := NewJob(c, f, w.clock(f.transaction));
    Note(PutJob(Refresh(s, w).state, f.transaction, job), Begun(f.transaction, job.expected, job.properties))
  }

  lemma BegunHandled(c: Config, s: State, f: Frame, w: World)
    requires Inv(c, s) && Admits(c, s, f, w)
    ensures var b, t := Handled(c, s, f, w), f.transaction;
            && Core(c, b, {t}) && t in b.jobs && b.jobs[t] == NewJob(c, f, w.clock(t)) && !Waits(b.jobs[t])
            && Ready(c, b.trace, t, b.jobs[t], false)
            && b.sequence == s.sequence && b.approved == w.approvals.value && b.jobs - {t} == s.jobs
  {
    var t, job := f.transaction, NewJob(c, f, w.clock(f.transaction));
    var r, e := s.(approved := w.approvals.value), Begun(t, job.expected, job.properties);
    HandledFields(c, s, f, w);
    NewJobWaitsNot(c, f, w);
    AdmittedFrame(c, s, f, w);
    hide *;
    RefreshKeeps(c, s, w);
    BegunReady(c, r.trace, f, w);
    StartHandled(c, r, t, job);
    NoteKeeps(c, PutJob(r, t, job), t, e);
  }

  lemma HandledFields(c: Config, s: State, f: Frame, w: World)
    requires Admits(c, s, f, w)
    ensures var r, t, job := s.(approved := w.approvals.value), f.transaction, NewJob(c, f, w.clock(f.transaction));
            var b := Handled(c, s, f, w);
            && Refresh(s, w).state == r
            && PutJob(r, t, job).trace == s.trace && t !in r.jobs && |r.jobs| < 2
            && b == Note(PutJob(r, t, job), Begun(t, job.expected, job.properties))
            && t in b.jobs && b.jobs[t] == job && b.trace == s.trace + [Begun(t, job.expected, job.properties)]
            && b.sequence == s.sequence && b.approved == w.approvals.value && b.jobs - {t} == s.jobs
  {
    assert s.jobs[f.transaction := NewJob(c, f, w.clock(f.transaction))] - {f.transaction} == s.jobs;
  }

  lemma AdmittedFrame(c: Config, s: State, f: Frame, w: World)
    requires Admits(c, s, f, w)
    ensures f.transaction != 0 && (c.player ==> f.identity != ZERO && MIN_PNG <= f.total <= MAX_PNG)
  {
    var list: Approvals := w.approvals.value;
    assert ZERO !in list;
  }

  lemma NewJobWaitsNot(c: Config, f: Frame, w: World)
    ensures !Waits(NewJob(c, f, w.clock(f.transaction)))
  {}

  lemma FreshSent(c: Config, b: State, f: Frame, w: World, u: State)
    requires f.transaction in b.jobs && b.jobs[f.transaction] == NewJob(c, f, w.clock(f.transaction))
    requires var t := f.transaction;
             var frame := NextFrame(c, t, b.jobs[t]).value;
             && NextFrame(c, t, b.jobs[t]).Some?
             && u == WithRequest(Note(PutJob(b, t, Advanced(b.jobs[t])), Sent(t, frame.(request := b.sequence + 1))),
                                 Pending(t, frame.op, frame.offset))
    ensures Fresh(c, u, f, w) && u.sequence == b.sequence + 1 && u.approved == b.approved
    ensures u.jobs - {f.transaction} == b.jobs - {f.transaction}
  {}

  lemma BegunSent(c: Config, s: State, f: Frame, w: World)
    requires Inv(c, s) && Admits(c, s, f, w)
    ensures var b, t := Handled(c, s, f, w), f.transaction;
            && Sendable(b, t)
            && var u := SendOrFail(c, b, t, w.accepts);
               && (t in u.jobs <==> w.accepts && s.sequence < MAX_SEQUENCE)
               && (t in u.jobs ==>
                     Fresh(c, u, f, w) && u.sequence == s.sequence + 1 && u.approved == w.approvals.value
                     && u.jobs - {t} == s.jobs)
  {
    var t, b := f.transaction, Handled(c, s, f, w);
    BegunHandled(c, s, f, w);
    FirstFrame(c, f, w);
    hide *;
    SentExactly(c, b, t, w.accepts);
    var u := SendOrFail(c, b, t, w.accepts);
    if t in u.jobs {
      FreshSent(c, b, f, w, u);
    }
  }

  lemma FirstFrame(c: Config, f: Frame, w: World)
    ensures NewJob(c, f, w.clock(f.transaction)).sent == 0
    ensures NextFrame(c, f.transaction, NewJob(c, f, w.clock(f.transaction))).Some?
  {}

  // ---- What an answer does ----

  /** An answer to the outstanding request of a transaction that is of its kind and not a failure. */
  predicate Correlated(s: State, t: nat, f: Frame, op: Op) {
    && s.approved != {} && f.request in s.pending && s.pending[f.request].transaction == t
    && s.pending[f.request].op == op && f.transaction == t && f.op == op && !f.failed
  }

  /** The size, the place and the amount of a chunk are what was asked for. */
  predicate ChunkFits(had: nat, total: nat, f: Frame, least: nat, most: nat) {
    && least <= f.total <= most && (total == 0 || total == f.total)
    && f.offset == had <= f.total && f.data != [] && |f.data| == Min(420, f.total - had)
  }

  lemma AnswerHandled(c: Config, s: State, t: nat, f: Frame, op: Op, w: World)
    requires Inv(c, s) && Correlated(s, t, f, op) && op != DependencyFailure
    ensures t in s.jobs && Bounded(s) && !Waits(s.jobs[t]) && OpOf(s.jobs[t].phase) == op
    ensures op == Fetch ==> s.pending[f.request].offset == |s.jobs[t].bytes|
    ensures op == Dependencies ==> s.pending[f.request].offset == |s.jobs[t].hashBytes|
    ensures var u := s.(pending := s.pending - {f.request});
            var o := ApplyResponse(c, u, t, f, s.pending[f.request]);
            && Applied(c, o, t) && (o.ok ==> Sendable(o.state, t))
            && ReceiveFrame(c, s, Some(f), w) == if o.ok then SendOrFail(c, o.state, t, w.accepts) else o.state
  {
    assert PendingOk(s, f.request, {});
    AnswerRoutes(c, s, f, w);
    hide Inv, ReceiveFrame, ApplyResponse, SendOrFail, Applied, Answered;
  }

  /** Whether a handled job goes on after an answer. */
  lemma AppliedGoesOn(c: Config, o: Outcome, t: nat, accepts: bool)
    requires Applied(c, o, t) && o.ok && Sendable(o.state, t) && o.state.jobs[t].phase != ObserveBegin
    ensures t in SendOrFail(c, o.state, t, accepts).jobs <==> accepts && o.state.sequence < MAX_SEQUENCE
    ensures t in SendOrFail(c, o.state, t, accepts).jobs ==>
              SendOrFail(c, o.state, t, accepts).jobs[t] == Advanced(o.state.jobs[t])
  {
    AlwaysAsks(c, t, o.state.jobs[t]);
    hide SendOrFail, Core, Ready, NextFrame, Advanced;
    SentExactly(c, o.state, t, accepts);
  }

  lemma AlwaysAsks(c: Config, t: nat, j: Job)
    requires j.sent <= |j.observation| && !Waits(j) && j.phase != ObserveBegin
    ensures NextFrame(c, t, j).Some?
  {}

  lemma FetchOutcome(s: State, t: nat, f: Frame, p: Pending)
    requires t in s.jobs && s.jobs[t].phase == Fetching && p.offset == |s.jobs[t].bytes|
    ensures var j, o := s.jobs[t], ReceiveFetch(s, t, f, p);
            var fits, whole := ChunkFits(|j.bytes|, j.total, f, 57, 4194304), |j.bytes| + |f.data| == f.total;
            && (o.ok <==> fits && !whole) && (t in o.state.jobs <==> fits) && o.state.sequence == s.sequence
            && (fits ==> o.state.jobs[t] == j.(total := f.total, bytes := j.bytes + f.data,
                                               phase := if whole then Import else Fetching))
  {
    hide Without;
  }

  /**
    A fetch goes on exactly with a chunk that fits; it is added, and either the content is whole and to be imported, or
    the next request goes out. Anything else ends the job.
  */
  lemma FetchAnswerExactly(c: Config, s: State, t: nat, f: Frame, w: World)
    requires Inv(c, s) && Correlated(s, t, f, Fetch)
    ensures Bounded(s) && t in s.jobs
    ensures var j, u := s.jobs[t], ReceiveFrame(c, s, Some(f), w);
            var whole := |j.bytes| + |f.data| == f.total;
            && (t in u.jobs <==>
                  ChunkFits(|j.bytes|, j.total, f, 57, 4194304) && (whole || (w.accepts && s.sequence < MAX_SEQUENCE)))
            && (t in u.jobs ==> u.jobs[t] == j.(total := f.total, bytes := j.bytes + f.data,
                                                phase := if whole then Import else Fetching))
  {
    AnswerHandled(c, s, t, f, Fetch, w);
    var p, taken := s.pending[f.request], s.(pending := s.pending - {f.request});
    assert s.jobs[t].phase == Fetching && p.offset == |s.jobs[t].bytes|;
    FetchOutcome(taken, t, f, p);
    var o := ApplyResponse(c, taken, t, f, p);
    assert o == ReceiveFetch(taken, t, f, p);
    if o.ok {
      hide *;
      AppliedGoesOn(c, o, t, w.accepts);
      NotAdvanced(o.state.jobs[t]);
    }
  }

  lemma NotAdvanced(j: Job)
    requires j.phase != ObserveChunk
    ensures Advanced(j) == j
  {}

  /** A whole manifest that was asked for: its digest is the one announced, and it names all that it must. */
  predicate ManifestFits(c: Config, j: Job, bytes: seq<byte>, hash: Digest) {
    && c.digest(bytes) == Some(hash) && c.decode(bytes).Some?
    && var m := c.decode(bytes).value;
       && m.png == j.expected && m.properties == j.properties && m.pngBytes == j.total
       && m.profile == c.profile && m.world == c.world
  }

  predicate ManifestChunkFits(j: Job, f: Frame) {
    && ChunkFits(|j.hashBytes|, j.hashTotal, f, 316, 6448)
    && f.identity != ZERO && (j.hash == ZERO || j.hash == f.identity)
  }

  predicate ManifestWhole(j: Job, f: Frame) {
    |j.hashBytes| + |f.data| == f.total
  }

  /** The job with one more chunk of its manifest; with the last one it goes on to check the parts. */
  function WithManifest(c: Config, j: Job, f: Frame): Job
    requires ManifestWhole(j, f) ==> c.decode(j.hashBytes + f.data).Some?
  {
    var more := j.(hashTotal := f.total, hash := f.identity, hashBytes := j.hashBytes + f.data);
    if ManifestWhole(j, f) then more.(dependencies := c.decode(more.hashBytes).value, phase := CheckParts) else more
  }

  lemma ManifestPart(c: Config, s: State, t: nat, f: Frame, p: Pending)
    requires t in s.jobs && s.jobs[t].phase == NeedDependencies && p.offset == |s.jobs[t].hashBytes|
    requires f.op == Dependencies
    ensures var j, o := s.jobs[t], ApplyResponse(c, s, t, f, p);
            && (o.ok <==> ManifestChunkFits(j, f) && !ManifestWhole(j, f)) && o.state.sequence == s.sequence
            && (t in o.state.jobs <==>
                  && ManifestChunkFits(j, f)
                  && (ManifestWhole(j, f) ==> ManifestFits(c, j, j.hashBytes + f.data, f.identity)))
            && (t in o.state.jobs ==> o.state.jobs[t] == WithManifest(c, j, f))
            && (o.ok ==> o.state.jobs[t].phase == NeedDependencies)
  {
    hide Without;
  }

  lemma AsksManifest(j: Job)
    requires OpOf(j.phase) == Dependencies
    ensures j.phase == NeedDependencies
  {}

  /**
    A player's manifest goes on exactly with a chunk that fits under the announced digest; the last chunk must make the
    whole verify, and then the parts are to be checked. Anything else ends the job.
  */
  lemma ManifestAnswerExactly(c: Config, s: State, t: nat, f: Frame, w: World)
    requires Inv(c, s) && Correlated(s, t, f, Dependencies)
    ensures Bounded(s) && t in s.jobs
    ensures var j, u := s.jobs[t], ReceiveFrame(c, s, Some(f), w);
            && (t in u.jobs <==>
                  && ManifestChunkFits(j, f)
                  && if ManifestWhole(j, f) then ManifestFits(c, j, j.hashBytes + f.data, f.identity)
                     else w.accepts && s.sequence < MAX_SEQUENCE)
            && (t in u.jobs ==> u.jobs[t] == WithManifest(c, j, f))
  {
    AnswerHandled(c, s, t, f, Dependencies, w);
    CorrelatedOp(s, t, f, Dependencies);
    var p, taken := s.pending[f.request], s.(pending := s.pending - {f.request});
    hide *;
    AsksManifest(s.jobs[t]);
    ManifestPart(c, taken, t, f, p);
    var o := ApplyResponse(c, taken, t, f, p);
    if o.ok {
      AppliedGoesOn(c, o, t, w.accepts);
      NotAdvanced(o.state.jobs[t]);
    }
  }

  lemma CorrelatedOp(s: State, t: nat, f: Frame, op: Op)
    requires Correlated(s, t, f, op)
    ensures f.request in s.pending && f.op == op
  {}

  /** A failure, an answer of another kind or transaction, and the answer to a report or to an end, end a job. */
  lemma AnswerEnds(c: Config, s: State, t: nat, f: Frame, w: World)
    requires Inv(c, s) && s.approved != {} && f.request in s.pending && s.pending[f.request].transaction == t
    requires var p := s.pending[f.request];
             f.transaction != t || f.op != p.op || f.failed || p.op == DependencyFailure || p.op == ObservationEnd
    ensures Bounded(s)
    ensures var u := ReceiveFrame(c, s, Some(f), w); u.jobs == s.jobs - {t} && u.trace == s.trace && !Awaited(u, t)
  {
    InvBounded(c, s);
    assert PendingOk(s, f.request, {});
    var taken := s.(pending := s.pending - {f.request});
    hide Inv, Core, Bounded, SendOrFail, ReceiveDependencies, ReceiveFetch, BeginJob, ApplyResponse, Drop, PendingOk;
    if f.op == ObservationEnd {
      EndApplies(c, taken, t, f, s.pending[f.request]);
    }
    assert ReceiveFrame(c, s, Some(f), w) == Drop(taken, {t});
    Dropped(taken, t);
  }

  lemma EndApplies(c: Config, s: State, t: nat, f: Frame, p: Pending)
    requires t in s.jobs && f.op == ObservationEnd
    ensures ApplyResponse(c, s, t, f, p) == Outcome(Drop(s, {t}), false)
  {
    hide Drop;
  }

  lemma Dropped(s: State, t: nat)
    ensures var u := Drop(s, {t}); u.jobs == s.jobs - {t} && u.trace == s.trace && !Awaited(u, t)
  {}

  /** A transaction that is cancelled or published ends, with its requests. */
  lemma NoticeEnds(c: Config, s: State, f: Frame, w: World)
    requires Bounded(s) && s.approved != {} && f.request == 0 && (f.op == CancelledEvent || f.op == PublishedEvent)
    ensures var u := ReceiveFrame(c, s, Some(f), w);
            && u.jobs == s.jobs - {f.transaction} && !Awaited(u, f.transaction)
            && forall r :: r in s.pending && s.pending[r].transaction != f.transaction ==>
                 r in u.pending && u.pending[r] == s.pending[r]
  {
    hide Bounded, ReceiveResponse, BeginJob;
  }

  // ---- The check of the parts ----

  /** The request after the check: for the content from its beginning, or a report of exactly the missing part. */
  function AfterCheck(t: nat, w: World, r: nat): Frame {
    if w.held then Blank(Fetch, t).(request := r)
    else Blank(DependencyFailure, t).(request := r, failed := true, missing := w.missing)
  }

  /** A checked job in its next phase, with that request sent last. */
  predicate Checked(j: Job, u: State, t: nat, w: World) {
    && t in u.jobs && u.trace != [] && u.sequence in u.pending
    && u.jobs[t] == j.(missing := w.missing, phase := if w.held then Fetching else ReportDependency)
    && u.trace[|u.trace| - 1] == Sent(t, AfterCheck(t, w, u.sequence))
    && u.pending[u.sequence] == Pending(t, if w.held then Fetch else DependencyFailure, 0)
  }

  /** The job as the check leaves it, before its request. */
  function CheckHandled(s: State, t: nat, w: World): State
    requires t in s.jobs
  {
    var j := s.jobs[t];
    var x := PutJob(s, t, j.(missing := w.missing, phase := if w.held then Fetching else ReportDependency));
    if w.held then Note(x, PartsReady(t, PartsOf(j))) else x
  }

  lemma CheckSends(c: Config, s: State, t: nat, w: World)
    requires Sendable(s, t)
    ensures var x, u := CheckHandled(s, t, w), CheckJobParts(c, s, t, w);
            && x.sequence == s.sequence && x.approved == s.approved && Sendable(x, t)
            && if w.held || (w.missing.group != 0 && w.missing.instance != 0) then u == SendOrFail(c, x, t, w.accepts)
               else t !in u.jobs
  {
    hide SendOrFail, Without;
  }

  lemma CheckedCore(c: Config, s: State, t: nat, w: World)
    requires Inv(c, s) && t in s.jobs && s.jobs[t].phase == CheckParts
    ensures var x := CheckHandled(s, t, w);
            && Sendable(s, t) && Core(c, x, {t}) && t in x.jobs && !Waits(x.jobs[t])
            && Ready(c, x.trace, t, x.jobs[t], false)
            && x.jobs[t] == s.jobs[t].(missing := w.missing, phase := if w.held then Fetching else ReportDependency)
            && x.jobs[t].bytes == [] && x.jobs[t].sent <= |x.jobs[t].observation|
  {
    var j := s.jobs[t];
    var k := j.(missing := w.missing, phase := if w.held then Fetching else ReportDependency);
    WaitingHandled(c, s, t);
    NothingFetched(c, s.trace, t, j);
    CheckedReady(c, s.trace, t, j, w.missing);
    hide Core, Ready, Sendable;
    PutKeeps(c, s, t, k);
    NoteKeeps(c, PutJob(s, t, k), t, PartsReady(t, PartsOf(j)));
  }

  lemma CheckedSent(c: Config, j: Job, x: State, t: nat, w: World, u: State)
    requires t in x.jobs && x.jobs[t].bytes == [] && x.jobs[t].sent <= |x.jobs[t].observation|
    requires x.jobs[t] == j.(missing := w.missing, phase := if w.held then Fetching else ReportDependency)
    requires var frame := NextFrame(c, t, x.jobs[t]);
             && frame.Some?
             && u == WithRequest(Note(PutJob(x, t, Advanced(x.jobs[t])),
                                      Sent(t, frame.value.(request := x.sequence + 1))),
                                 Pending(t, frame.value.op, frame.value.offset))
    ensures Checked(j, u, t, w) && u.sequence == x.sequence + 1 && u.approved == x.approved
  {
    CheckedFrame(c, t, x.jobs[t]);
    hide NextFrame;
  }

  /**
    With every part held a job goes on to fetch the content from its beginning; with a known part missing it reports
    exactly that part; otherwise it ends. So it does when its request does not go out.
  */
  lemma CheckExactly(c: Config, s: State, t: nat, w: World)
    requires Inv(c, s) && t in s.jobs && s.jobs[t].phase == CheckParts && Sendable(s, t)
    ensures var u := CheckJobParts(c, s, t, w);
            && (t in u.jobs <==>
                  (w.held || (w.missing.group != 0 && w.missing.instance != 0))
                  && w.accepts && s.sequence < MAX_SEQUENCE)
            && (t in u.jobs ==> Checked(s.jobs[t], u, t, w) && u.sequence == s.sequence + 1 && u.approved == s.approved)
  {
    var x, u := CheckHandled(s, t, w), CheckJobParts(c, s, t, w);
    CheckedCore(c, s, t, w);
    CheckSends(c, s, t, w);
    CheckedFrame(c, t, x.jobs[t]);
    hide *;
    if w.held || (w.missing.group != 0 && w.missing.instance != 0) {
      SentExactly(c, x, t, w.accepts);
      if t in u.jobs {
        CheckedSent(c, s.jobs[t], x, t, w, u);
      }
    }
  }

  lemma NothingFetched(c: Config, trace: seq<Event>, t: nat, j: Job)
    requires Ready(c, trace, t, j, true) && j.phase == CheckParts
    ensures j.bytes == [] && j.sent == 0
  {
    hide Verified, Opened;
  }

  lemma CheckedFrame(c: Config, t: nat, k: Job)
    requires k.sent <= |k.observation| && (k.phase == Fetching || k.phase == ReportDependency) && k.bytes == []
    ensures NextFrame(c, t, k)
         == Some(if k.phase == Fetching then Blank(Fetch, t)
                 else Blank(DependencyFailure, t).(failed := true, missing := k.missing))
  {}

  // ---- From one phase to the next ----

  /** A fresh job of a player is at the beginning of its manifest, any other at the beginning of its content. */
  lemma FreshStarts(c: Config, u: State, f: Frame, w: World, bytes: seq<byte>, hash: Digest)
    requires Fresh(c, u, f, w) && bytes != []
    requires if c.player then
               c.decode(bytes).Some? && Names(c, u.jobs[f.transaction], c.decode(bytes).value)
             else f.total == 0 || f.total == |bytes|
    ensures c.player ==> Gathering(c, u, f.transaction, bytes, hash, u.sequence)
    ensures !c.player ==> FetchingFrom(u, f.transaction, bytes, u.sequence)
  {}

  /** A job whose parts are all held is at the beginning of its content. */
  lemma CheckedStarts(j: Job, u: State, t: nat, w: World, bytes: seq<byte>)
    requires Checked(j, u, t, w) && w.held && j.bytes == [] && bytes != [] && j.total == |bytes|
    ensures FetchingFrom(u, t, bytes, u.sequence)
  {}
}
