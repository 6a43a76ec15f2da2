/**
  What the original is made to import: in any run each content at most once, and afterwards it is only inspected, under
  the key it was imported with.
*/
module ContentImports {
  import opened Basics
  import opened ContentSpec
  import opened Words
  import opened ContentSafety
  import opened ContentRuns
  import opened ContentProgress

  /** The original imported this content at this place of the trace. */
  predicate ImportsAt(trace: seq<Event>, i: nat, hash: Digest) {
    && i < |trace| && trace[i].Loaded? && trace[i].hash == hash
    && trace[i].reading.Imports? && trace[i].reading.got.Some?
  }

  predicate ReadingsOk(trace: seq<Event>) {
    forall i :: 0 <= i < |trace| && trace[i].Loaded? ==> ReadingOk(trace[..i], trace[i])
  }

  lemma ShorterReadings(trace: seq<Event>, n: nat)
    requires ReadingsOk(trace) && n <= |trace|
    ensures ReadingsOk(trace[..n])
  {
    hide ReadingOk;
    var shorter := trace[..n];
    forall i | 0 <= i < |shorter| && shorter[i].Loaded? ensures ReadingOk(shorter[..i], shorter[i]) {
      assert shorter[..i] == trace[..i];
    }
  }

  /** An import is known from then on, under its key: no later one replaces it. */
  lemma {:induction false} KeyStays(trace: seq<Event>, i: nat, hash: Digest)
    requires ReadingsOk(trace) && ImportsAt(trace, i, hash)
    ensures hash in Imported(trace) && Imported(trace)[hash] == trace[i].reading.got.value
    decreases |trace|
  {
    var n := |trace| - 1;
    if i < n {
      ShorterReadings(trace, n);
      KeyStays(trace[..n], i, hash);
      assert trace[n].Loaded? ==> ReadingOk(trace[..n], trace[n]);
    }
  }

  /** What is known was imported. */
  lemma {:induction false} KnownWasImported(trace: seq<Event>, hash: Digest) returns (i: nat)
    requires hash in Imported(trace)
    ensures ImportsAt(trace, i, hash) && trace[i].reading.got == Some(Imported(trace)[hash])
    decreases |trace|
  {
    var n := |trace| - 1;
    if ImportsAt(trace, n, hash) {
      i := n;
    } else {
      i := KnownWasImported(trace[..n], hash);
    }
  }

  lemma ReachedReadings(c: Config, approved: Approvals, turns: seq<Turn>)
    ensures var s := Reach(c, approved, turns); ReadingsOk(s.trace) && s.imported == Imported(s.trace)
  {
    hide Ready, LoadOk, ReadingOk, Imported, Reach, RequestsOk, JobsOk, OneEach;
    ImportsKnown(c, Reach(c, approved, turns), {});
  }

  /** In any run, whatever is handed over after its import is inspected, under the key of that import. */
  lemma ImportedOnce(c: Config, approved: Approvals, turns: seq<Turn>, i: nat, j: nat)
    requires var trace := Reach(c, approved, turns).trace;
             && i < j < |trace| && trace[i].Loaded? && trace[j].Loaded? && trace[i].hash == trace[j].hash
             && ImportsAt(trace, i, trace[i].hash)
    ensures var trace := Reach(c, approved, turns).trace;
            trace[j].reading.Inspects? && Some(trace[j].reading.key) == trace[i].reading.got
  {
    hide Reach;
    ReachedReadings(c, approved, turns);
    var trace := Reach(c, approved, turns).trace;
    ShorterReadings(trace, j);
    KeyStays(trace[..j], i, trace[i].hash);
  }

  /** And whatever is inspected was imported before. */
  lemma InspectedAfterImport(c: Config, approved: Approvals, turns: seq<Turn>, j: nat) returns (i: nat)
    requires var trace := Reach(c, approved, turns).trace;
             j < |trace| && trace[j].Loaded? && trace[j].reading.Inspects?
    ensures var trace := Reach(c, approved, turns).trace;
            i < j && ImportsAt(trace, i, trace[j].hash) && trace[i].reading.got == Some(trace[j].reading.key)
  {
    hide Reach;
    ReachedReadings(c, approved, turns);
    var trace := Reach(c, approved, turns).trace;
    i := KnownWasImported(trace[..j], trace[j].hash);
  }

  // ---- The trace only grows ----

  lemma SendGrows(c: Config, s: State, t: nat, accepts: bool)
    requires Sendable(s, t)
    ensures s.trace <= SendOrFail(c, s, t, accepts).trace
  {
    hide NextFrame, Without;
  }

  lemma PutThenSendGrows(c: Config, s: State, t: nat, k: Job, accepts: bool)
    requires k.sent <= |k.observation|
    ensures s.trace <= SendOrFail(c, PutJob(s, t, k), t, accepts).trace
  {
    hide SendOrFail;
    SendGrows(c, PutJob(s, t, k), t, accepts);
  }

  lemma NoteThenSendGrows(c: Config, s: State, t: nat, k: Job, e: Event, accepts: bool)
    requires k.sent <= |k.observation|
    ensures s.trace <= SendOrFail(c, Note(PutJob(s, t, k), e), t, accepts).trace
  {
    hide SendOrFail;
    SendGrows(c, Note(PutJob(s, t, k), e), t, accepts);
  }

  lemma ApplySame(c: Config, s: State, t: nat, f: Frame, p: Pending)
    requires t in s.jobs
    ensures ApplyResponse(c, s, t, f, p).state.trace == s.trace
  {
    hide Without, Verified;
  }

  lemma ResponseGrows(c: Config, s: State, f: Frame, w: World)
    requires Bounded(s)
    ensures s.trace <= ReceiveResponse(c, s, f, w).trace
  {
    hide SendOrFail, Without, ApplyResponse, Sendable, Bounded;
    if f.request in s.pending {
      var p := s.pending[f.request];
      var t, u := p.transaction, s.(pending := s.pending - {f.request});
      if t in u.jobs {
        ApplySame(c, u, t, f, p);
        StillBoundedTaken(s, f.request);
        ApplyBounded(c, u, t, f, p);
        var o := ApplyResponse(c, u, t, f, p);
        if o.ok {
          SendGrows(c, o.state, t, w.accepts);
        }
      }
    }
  }

  lemma StillBoundedTaken(s: State, r: nat)
    requires Bounded(s)
    ensures Bounded(s.(pending := s.pending - {r}))
  {}

  lemma RefreshSame(s: State, w: World)
    ensures Refresh(s, w).state.trace == s.trace
    ensures Refresh(s, w).ok ==> Refresh(s, w).state.jobs == s.jobs && Refresh(s, w).state.imported == s.imported
  {}

  lemma BeginGrows(c: Config, s: State, f: Frame, w: World)
    ensures s.trace <= BeginJob(c, s, f, w).trace
  {
    hide SendOrFail, Refresh;
    RefreshSame(s, w);
    var u, t := Refresh(s, w).state, f.transaction;
    var job := NewJob(c, f, w.clock(t));
    NoteThenSendGrows(c, u, t, job, Begun(t, job.expected, job.properties), w.accepts);
  }

  lemma CheckGrows(c: Config, s: State, t: nat, w: World)
    requires Sendable(s, t)
    ensures s.trace <= CheckJobParts(c, s, t, w).trace
  {
    hide SendOrFail, Without;
    var job := s.jobs[t];
    NoteThenSendGrows(c, s, t, job.(phase := Fetching, missing := w.missing), PartsReady(t, PartsOf(job)), w.accepts);
    PutThenSendGrows(c, s, t, job.(phase := ReportDependency, missing := w.missing), w.accepts);
  }

  lemma LoadGrows(s: State, t: nat, hash: Digest, bytes: seq<byte>, w: World)
    ensures s.trace <= LoadContent(s, t, hash, bytes, w).state.trace
  {}

  lemma ImportGrows(c: Config, s: State, t: nat, w: World)
    requires t in s.jobs && s.jobs[t].sent == 0
    ensures s.trace <= ImportJob(c, s, t, w).trace
  {
    hide SendOrFail, Without, Refresh, LoadContent;
    RefreshSame(s, w);
    var u, d := Refresh(s, w).state, c.digest(s.jobs[t].bytes);
    if d.Some? && w.encoded.Some? {
      LoadGrows(u, t, d.value, s.jobs[t].bytes, w);
      var k := s.jobs[t].(observation := w.encoded.value, bytes := [], phase := ObserveBegin);
      PutThenSendGrows(c, LoadContent(u, t, d.value, s.jobs[t].bytes, w).state, t, k, w.accepts);
    } else if d.Some? {
      LoadGrows(u, t, d.value, s.jobs[t].bytes, w);
    }
  }

  lemma WorkGrows(c: Config, s: State, w: World)
    requires Bounded(s)
    ensures s.trace <= Work(c, s, w).trace
  {
    hide CheckJobParts, ImportJob;
    if !Idle(s) {
      var t := FirstWaiting(s);
      if s.jobs[t].phase == CheckParts {
        CheckGrows(c, s, t, w);
      } else {
        ImportGrows(c, s, t, w);
      }
    }
  }

  lemma FrameGrows(c: Config, s: State, f: Frame, w: World)
    requires Bounded(s)
    ensures s.trace <= ReceiveFrame(c, s, Some(f), w).trace
  {
    ResponseGrows(c, s, f, w);
    BeginGrows(c, s, f, w);
    FrameCases(c, s, f, w);
    hide Bounded, ReceiveFrame, ReceiveResponse, BeginJob, Without;
  }

  lemma UpdateGrows(c: Config, s: State, w: World)
    requires Bounded(s)
    ensures s.trace <= UpdateAll(c, s, w).trace
  {
    StillBounded(s, Late(s, w.clock));
    WorkGrows(c, Expire(s, w.clock), w);
    hide Bounded, Work, Without;
  }

  lemma StepGrows(c: Config, s: State, input: Input, w: World)
    requires Inv(c, s)
    ensures Bounded(s) && s.trace <= Step(c, s, input, w).trace
  {
    InvBounded(c, s);
    hide Inv, Bounded, UpdateAll, ReceiveResponse, BeginJob, Remove;
    match input
    case Receive(frame) =>
      if frame.Some? {
        FrameGrows(c, s, frame.value, w);
      }
    case Update => UpdateGrows(c, s, w);
    case Fence =>
  }

  lemma {:induction false} RunGrows(c: Config, s: State, turns: seq<Turn>)
    requires Inv(c, s)
    ensures s.trace <= Run(c, s, turns).trace
    decreases |turns|
  {
    hide Inv, Step;
    if turns != [] {
      StepKeeps(c, s, turns[0].input, turns[0].world);
      StepGrows(c, s, turns[0].input, turns[0].world);
      RunGrows(c, Step(c, s, turns[0].input, turns[0].world), turns[1..]);
    }
  }

  /** Content once imported stays known for the rest of any run, under its key. */
  lemma KnownForever(c: Config, approved: Approvals, before: seq<Turn>, after: seq<Turn>, hash: Digest)
    requires hash in Reach(c, approved, before).imported
    ensures var s, u := Reach(c, approved, before), Reach(c, approved, before + after);
            hash in u.imported && u.imported[hash] == s.imported[hash]
  {
    InitialInv(c, approved);
    RunConcat(c, Initial(approved), before, after);
    ReachedReadings(c, approved, before);
    ReachedReadings(c, approved, before + after);
    hide Run, Inv, ReadingsOk;
    var s, u := Reach(c, approved, before), Reach(c, approved, before + after);
    RunGrows(c, s, after);
    var i := KnownWasImported(s.trace, hash);
    assert ImportsAt(u.trace, i, hash) && u.trace[i] == s.trace[i];
    KeyStays(u.trace, i, hash);
  }

  // ---- What decides an import ----

  /** The announcement of an observation is sent. */
  predicate AnnouncedFrom(c: Config, s: State, u: State, t: nat, k: Job, hash: Digest) {
    var f := Blank(ObservationBegin, t).(request := s.sequence + 1, total := |k.observation|, identity := hash);
    && t in u.jobs && u.jobs[t] == k && u.sequence == s.sequence + 1
    && u.sequence in u.pending && u.pending[u.sequence] == Pending(t, ObservationBegin, 0)
    && u.trace == s.trace + [Sent(t, f)]
  }

  /** A job's observation is announced exactly when it has a digest, output takes it and numbers remain. */
  lemma Announced(c: Config, s: State, t: nat, accepts: bool)
    requires Core(c, s, {t}) && t in s.jobs && Ready(c, s.trace, t, s.jobs[t], false)
    requires s.jobs[t].phase == ObserveBegin
    ensures Sendable(s, t)
    ensures var u, d := SendOrFail(c, s, t, accepts), c.digest(s.jobs[t].observation);
            && (t in u.jobs <==> d.Some? && accepts && s.sequence < MAX_SEQUENCE)
            && (t in u.jobs ==> AnnouncedFrom(c, s, u, t, s.jobs[t], d.value))
  {
    ReadySendable(c, s, t);
    AnnouncementFrame(c, t, s.jobs[t]);
    var d := c.digest(s.jobs[t].observation);
    var u := SendOrFail(c, s, t, accepts);
    hide *;
    SentExactly(c, s, t, accepts);
    if t in u.jobs {
      AnnouncementSent(c, s, u, t, d.value);
    }
  }

  lemma AnnouncementFrame(c: Config, t: nat, j: Job)
    requires j.sent <= |j.observation| && j.phase == ObserveBegin
    ensures !Waits(j) && Advanced(j) == j
    ensures NextFrame(c, t, j)
         == match c.digest(j.observation)
            case None => None
            case Some(hash) => Some(Blank(ObservationBegin, t).(total := |j.observation|, identity := hash))
  {}

  lemma AnnouncementSent(c: Config, s: State, u: State, t: nat, hash: Digest)
    requires t in s.jobs
    requires var frame := Blank(ObservationBegin, t).(total := |s.jobs[t].observation|, identity := hash);
             u == WithRequest(Note(PutJob(s, t, s.jobs[t]), Sent(t, frame.(request := s.sequence + 1))),
                              Pending(t, frame.op, frame.offset))
    ensures AnnouncedFrom(c, s, u, t, s.jobs[t], hash)
  {}

  lemma LoadOutcome(s: State, t: nat, hash: Digest, bytes: seq<byte>, w: World)
    ensures var o := LoadContent(s, t, hash, bytes, w);
            && (o.ok <==> if hash in s.imported then w.inspected else w.staged && w.loaded.Some?)
            && o.state.jobs == s.jobs && o.state.sequence == s.sequence
  {}

  lemma LoadedThenAnnounced(c: Config, s: State, t: nat, hash: Digest, w: World)
    requires Core(c, s, {t}) && t in s.jobs && s.jobs[t].phase == Import
    requires Ready(c, s.trace, t, s.jobs[t], true)
    requires c.digest(s.jobs[t].bytes) == Some(hash) && hash in s.approved && w.encoded.Some?
    requires s.jobs[t].expected == ZERO || s.jobs[t].expected == hash
    ensures var k := s.jobs[t].(observation := w.encoded.value, bytes := [], phase := ObserveBegin);
            var x := PutJob(LoadContent(s, t, hash, s.jobs[t].bytes, w).state, t, k);
            && Sendable(x, t)
            && var u := SendOrFail(c, x, t, w.accepts);
               && (t in u.jobs <==> c.digest(w.encoded.value).Some? && w.accepts && s.sequence < MAX_SEQUENCE)
               && (t in u.jobs ==> u.jobs[t] == k && AnnouncedFrom(c, x, u, t, k, c.digest(w.encoded.value).value))
  {
    ImportAllowed(c, s, t, hash);
    LoadOutcome(s, t, hash, s.jobs[t].bytes, w);
    hide Core, SendOrFail, LoadContent, LoadAllowed, Ready, Sendable;
    LoadKeeps(c, s, t, hash, w);
    var l := LoadContent(s, t, hash, s.jobs[t].bytes, w).state;
    var k := s.jobs[t].(observation := w.encoded.value, bytes := [], phase := ObserveBegin);
    ImportedReady(c, s.trace, l.trace, t, s.jobs[t], w.encoded.value);
    PutKeeps(c, l, t, k);
    Announced(c, PutJob(l, t, k), t, w.accepts);
  }

  lemma RefreshOutcome(c: Config, s: State, w: World, t: nat)
    requires Inv(c, s) && t in s.jobs && Waits(s.jobs[t])
    ensures s.jobs[t].sent == 0
    ensures var r := Refresh(s, w);
            && (r.ok <==> w.approvals.Some?) && (!r.ok ==> t !in r.state.jobs)
            && (r.ok ==>
                  && Core(c, r.state, {t}) && r.state.jobs == s.jobs && r.state.approved == w.approvals.value
                  && r.state.imported == s.imported && r.state.sequence == s.sequence
                  && Ready(c, r.state.trace, t, s.jobs[t], true))
  {
    WaitingHandled(c, s, t);
    NoneSent(c, s.trace, t, s.jobs[t]);
    RefreshKeeps(c, s, w);
    hide Core, Ready;
    if w.approvals.Some? {
      WaitingHandled(c, Refresh(s, w).state, t);
    }
  }

  /**
    A job that is to be imported goes on exactly when its content is the expected one and approved now, the original
    reads it, and its observation can be announced. Known content is only inspected: staging and importing it again
    have no say.
  */
  lemma ImportOutcome(c: Config, s: State, t: nat, w: World)
    requires Inv(c, s) && t in s.jobs && s.jobs[t].phase == Import
    ensures s.jobs[t].sent == 0
    ensures var job, u := s.jobs[t], ImportJob(c, s, t, w);
            var d := c.digest(job.bytes);
            && (t in u.jobs <==>
                  && w.approvals.Some? && d.Some? && (job.expected == ZERO || job.expected == d.value)
                  && d.value in w.approvals.value
                  && (if d.value in s.imported then w.inspected else w.staged && w.loaded.Some?)
                  && w.encoded.Some? && c.digest(w.encoded.value).Some? && w.accepts && s.sequence < MAX_SEQUENCE)
            && (t in u.jobs ==>
                  u.jobs[t] == job.(observation := w.encoded.value, bytes := [], phase := ObserveBegin))
  {
    RefreshOutcome(c, s, w, t);
    var job, r := s.jobs[t], Refresh(s, w);
    var d := c.digest(job.bytes);
    hide Inv, Core, Ready, SendOrFail, LoadContent, Refresh, Without, Sendable;
    if r.ok && d.Some? && d.value in r.state.approved && (job.expected == ZERO || job.expected == d.value) {
      LoadOutcome(r.state, t, d.value, job.bytes, w);
      if w.encoded.Some? {
        LoadedThenAnnounced(c, r.state, t, d.value, w);
      }
    }
  }

  /** So from the first import of some content on, in any run, every later transaction for it succeeds by inspection. */
  lemma LaterImport(c: Config, approved: Approvals, before: seq<Turn>, after: seq<Turn>, t: nat, w: World)
    requires var s := Reach(c, approved, before + after);
             && t in s.jobs && s.jobs[t].phase == Import && c.digest(s.jobs[t].bytes).Some?
             && c.digest(s.jobs[t].bytes).value in Reach(c, approved, before).imported
    ensures Reach(c, approved, before + after).jobs[t].sent == 0
    ensures var s := Reach(c, approved, before + after);
            var hash, u := c.digest(s.jobs[t].bytes).value, ImportJob(c, s, t, w);
            t in u.jobs <==>
              && w.inspected && w.approvals.Some? && hash in w.approvals.value
              && (s.jobs[t].expected == ZERO || s.jobs[t].expected == hash)
              && w.encoded.Some? && c.digest(w.encoded.value).Some? && w.accepts && s.sequence < MAX_SEQUENCE
  {
    hide Reach, Inv, ImportJob;
    var s := Reach(c, approved, before + after);
    KnownForever(c, approved, before, after, c.digest(s.jobs[t].bytes).value);
    ImportOutcome(c, s, t, w);
  }
}
