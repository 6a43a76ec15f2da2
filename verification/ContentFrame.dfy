/** What a step of the content exchange leaves alone: a transaction it neither answers, ends nor restarts. */
module ContentFrame {
  import opened Basics
  import opened ContentSpec
  import opened Words
  import opened ContentSafety

  /** More events, none of this transaction. */
  ghost predicate Grown(before: seq<Event>, after: seq<Event>, t: nat) {
    && before <= after
    && forall i :: |before| <= i < |after| ==>
         after[i].transaction != t && (after[i].Sent? ==> after[i].frame.transaction == after[i].transaction)
  }

  ghost predicate Numbered(s: State) {
    forall r :: r in s.pending ==> r <= s.sequence
  }

  ghost predicate RequestsKept(s: State, u: State, t: nat) {
    forall r :: r in s.pending && s.pending[r].transaction == t ==> r in u.pending && u.pending[r] == s.pending[r]
  }

  /** The job of this transaction and its requests are as they were; at most n requests were sent for others. */
  ghost predicate Untouched(s: State, u: State, t: nat, n: nat) {
    && t in s.jobs && t in u.jobs && u.jobs[t] == s.jobs[t] && Numbered(u) && RequestsKept(s, u, t)
    && Grown(s.trace, u.trace, t)
    && s.sequence <= u.sequence <= s.sequence + n && (s.approved != {} ==> u.approved != {})
  }

  /**
    An input that is not for this transaction: no fence and no lost approvals, no answer to its request, not its
    cancellation or publication, and no update at or after its deadline.
  */
  predicate Harmless(s: State, input: Input, w: World, t: nat)
    requires t in s.jobs
  {
    && w.approvals.Some?
    && match input
       case Fence => false
       case Update => w.clock(t) < s.jobs[t].deadline
       case Receive(None) => true
       case Receive(Some(f)) =>
         if f.request != 0 then f.request in s.pending ==> s.pending[f.request].transaction != t
         else f.op == CancelledEvent || f.op == PublishedEvent ==> f.transaction != t
  }

  lemma KeptTwice(s: State, u: State, v: State, t: nat, m: nat, n: nat)
    requires Untouched(s, u, t, m) && Untouched(u, v, t, n)
    ensures Untouched(s, v, t, m + n)
  {
    forall i | |s.trace| <= i < |v.trace|
      ensures v.trace[i].transaction != t
      ensures v.trace[i].Sent? ==> v.trace[i].frame.transaction == v.trace[i].transaction
    {
      assert i < |u.trace| ==> v.trace[i] == u.trace[i];
    }
  }

  lemma KeptMore(s: State, u: State, t: nat, m: nat, n: nat)
    requires Untouched(s, u, t, m) && m <= n
    ensures Untouched(s, u, t, n)
  {}

  lemma KeptSame(s: State, t: nat)
    requires t in s.jobs && Numbered(s)
    ensures Untouched(s, s, t, 0)
  {}

  lemma KeptDrop(s: State, ts: set<nat>, t: nat)
    requires t in s.jobs && Numbered(s) && t !in ts
    ensures Untouched(s, Drop(s, ts), t, 0)
  {}

  lemma KeptPut(s: State, v: nat, k: Job, t: nat)
    requires t in s.jobs && Numbered(s) && v != t
    ensures Untouched(s, PutJob(s, v, k), t, 0)
  {}

  lemma KeptNote(s: State, e: Event, t: nat)
    requires t in s.jobs && Numbered(s) && e.transaction != t && !e.Sent?
    ensures Untouched(s, Note(s, e), t, 0)
  {}

  lemma KeptRefresh(s: State, w: World, t: nat)
    requires t in s.jobs && Numbered(s) && w.approvals.Some?
    ensures Refresh(s, w).ok && Untouched(s, Refresh(s, w).state, t, 0) && Refresh(s, w).state.jobs == s.jobs
  {}

  lemma KeptTaken(s: State, r: nat, t: nat)
    requires t in s.jobs && Numbered(s) && r in s.pending && s.pending[r].transaction != t
    ensures Untouched(s, s.(pending := s.pending - {r}), t, 0)
  {}

  lemma KeptRequest(s: State, frame: Frame, accepts: bool, t: nat)
    requires t in s.jobs && Numbered(s) && frame.transaction != t
    ensures Untouched(s, Request(s, frame, accepts).state, t, 1)
  {
    assert s.sequence + 1 !in s.pending;
  }

  lemma KeptSend(c: Config, s: State, v: nat, accepts: bool, t: nat)
    requires Sendable(s, v) && t in s.jobs && Numbered(s) && v != t
    ensures Untouched(s, SendOrFail(c, s, v, accepts), t, 1)
  {
    NextTransaction(c, v, s.jobs[v]);
    var next := NextFrame(c, v, s.jobs[v]);
    var o := SendNext(c, s, v, accepts);
    hide *;
    KeptSame(s, t);
    if next.Some? {
      var k := Advanced(s.jobs[v]);
      KeptPut(s, v, k, t);
      UntouchedNumbered(s, PutJob(s, v, k), t, 0);
      KeptRequest(PutJob(s, v, k), next.value, accepts, t);
      KeptTwice(s, PutJob(s, v, k), Request(PutJob(s, v, k), next.value, accepts).state, t, 0, 1);
    } else {
      KeptMore(s, s, t, 0, 1);
    }
    SendNextCases(c, s, v, accepts);
    UntouchedNumbered(s, o.state, t, 1);
    KeptDrop(o.state, {v}, t);
    KeptTwice(s, o.state, Drop(o.state, {v}), t, 1, 0);
    SendCases(c, s, v, accepts);
  }

  lemma UntouchedNumbered(s: State, u: State, t: nat, n: nat)
    requires Untouched(s, u, t, n)
    ensures t in u.jobs && Numbered(u) && u.jobs[t] == s.jobs[t]
  {}

  lemma SendNextCases(c: Config, s: State, v: nat, accepts: bool)
    requires Sendable(s, v)
    ensures v in s.jobs && s.jobs[v].sent <= |s.jobs[v].observation|
    ensures SendNext(c, s, v, accepts)
         == match NextFrame(c, v, s.jobs[v])
            case None => Outcome(s, false)
            case Some(frame) => Request(PutJob(s, v, Advanced(s.jobs[v])), frame, accepts)
  {}

  lemma SendCases(c: Config, s: State, v: nat, accepts: bool)
    requires Sendable(s, v)
    ensures var o := SendNext(c, s, v, accepts);
            SendOrFail(c, s, v, accepts) == if o.ok then o.state else Drop(o.state, {v})
  {}

  lemma NextTransaction(c: Config, t: nat, j: Job)
    requires j.sent <= |j.observation|
    ensures NextFrame(c, t, j).Some? ==> NextFrame(c, t, j).value.transaction == t
  {}

  lemma KeptApply(c: Config, s: State, v: nat, f: Frame, p: Pending, t: nat)
    requires t in s.jobs && Numbered(s) && v in s.jobs && v != t
    ensures Untouched(s, ApplyResponse(c, s, v, f, p).state, t, 0)
  {
    ApplyCases(c, s, v, f, p);
    var u := ApplyResponse(c, s, v, f, p).state;
    hide Untouched, Numbered, ApplyResponse, Drop, PutJob;
    KeptDrop(s, {v}, t);
    if v in u.jobs {
      KeptPut(s, v, u.jobs[v], t);
    }
  }

  /** Only this transaction may have changed. */
  predicate OnlyAt(s: State, u: State, v: nat) {
    u == Drop(s, {v}) || (v in u.jobs && u == PutJob(s, v, u.jobs[v]))
  }

  lemma PutOnly(s: State, v: nat, k: Job)
    ensures OnlyAt(s, PutJob(s, v, k), v) && OnlyAt(s, Drop(s, {v}), v)
  {
    hide Drop;
  }

  lemma ApplyCases(c: Config, s: State, v: nat, f: Frame, p: Pending)
    requires v in s.jobs
    ensures OnlyAt(s, ApplyResponse(c, s, v, f, p).state, v)
  {
    var job := s.jobs[v];
    DependenciesCases(c, s, v, f, p);
    FetchCases(s, v, f, p);
    PutOnly(s, v, job.(phase := ObserveChunk));
    PutOnly(s, v, job.(phase := ObserveEnd));
    hide Drop, PutJob, OnlyAt, ReceiveDependencies, ReceiveFetch;
  }

  lemma DependenciesCases(c: Config, s: State, v: nat, f: Frame, p: Pending)
    requires v in s.jobs
    ensures OnlyAt(s, ReceiveDependencies(c, s, v, f, p).state, v)
  {
    hide Drop, Verified, DependencyChunkOk;
  }

  lemma FetchCases(s: State, v: nat, f: Frame, p: Pending)
    requires v in s.jobs
    ensures OnlyAt(s, ReceiveFetch(s, v, f, p).state, v)
  {
    hide Drop, FetchChunkOk;
  }

  lemma KeptResponse(c: Config, s: State, f: Frame, w: World, t: nat)
    requires Bounded(s) && Numbered(s) && t in s.jobs
    requires f.request in s.pending ==> s.pending[f.request].transaction != t
    ensures Untouched(s, ReceiveResponse(c, s, f, w), t, 1)
  {
    hide Untouched, Numbered, Drop, ApplyResponse, SendOrFail, Bounded, Sendable;
    KeptSame(s, t);
    KeptMore(s, s, t, 0, 1);
    if f.request in s.pending {
      var p := s.pending[f.request];
      var v, u := p.transaction, s.(pending := s.pending - {f.request});
      KeptTaken(s, f.request, t);
      KeptMore(s, u, t, 0, 1);
      UntouchedNumbered(s, u, t, 0);
      KeptDrop(u, {v}, t);
      KeptTwice(s, u, Drop(u, {v}), t, 1, 0);
      if v in u.jobs {
        KeptApplied(c, s, u, v, f, p, w.accepts, t);
      }
    }
  }

  lemma KeptApplied(c: Config, s: State, u: State, v: nat, f: Frame, p: Pending, accepts: bool, t: nat)
    requires Bounded(s) && Untouched(s, u, t, 0) && u.jobs == s.jobs && v in u.jobs && v != t
    ensures var o := ApplyResponse(c, u, v, f, p);
            if o.ok then Sendable(o.state, v) && Untouched(s, SendOrFail(c, o.state, v, accepts), t, 1)
            else Untouched(s, o.state, t, 1)
  {
    hide Untouched, Numbered, ApplyResponse, SendOrFail, Sendable;
    UntouchedNumbered(s, u, t, 0);
    ApplyBounded(c, u, v, f, p);
    KeptApply(c, u, v, f, p, t);
    var o := ApplyResponse(c, u, v, f, p);
    KeptTwice(s, u, o.state, t, 0, 0);
    KeptMore(s, o.state, t, 0, 1);
    if o.ok {
      UntouchedNumbered(s, o.state, t, 0);
      KeptSend(c, o.state, v, accepts, t);
      KeptTwice(s, o.state, SendOrFail(c, o.state, v, accepts), t, 0, 1);
    }
  }

  /** A handled job of another transaction is changed, perhaps noted, and its next request is sent. */
  lemma KeptPutSend(c: Config, s: State, v: nat, k: Job, note: Option<Event>, accepts: bool, t: nat)
    requires t in s.jobs && Numbered(s) && v != t && k.sent <= |k.observation|
    requires note.Some? ==> note.value.transaction == v && !note.value.Sent?
    ensures var u := if note.Some? then Note(PutJob(s, v, k), note.value) else PutJob(s, v, k);
            Sendable(u, v) && Untouched(s, SendOrFail(c, u, v, accepts), t, 1)
  {
    var p := PutJob(s, v, k);
    var u := if note.Some? then Note(p, note.value) else p;
    assert Sendable(u, v);
    hide Untouched, Numbered, SendOrFail, Sendable;
    KeptPut(s, v, k, t);
    UntouchedNumbered(s, p, t, 0);
    if note.Some? {
      KeptNote(p, note.value, t);
      KeptTwice(s, p, u, t, 0, 0);
    }
    UntouchedNumbered(s, u, t, 0);
    KeptSend(c, u, v, accepts, t);
    KeptTwice(s, u, SendOrFail(c, u, v, accepts), t, 0, 1);
  }

  lemma KeptBegin(c: Config, s: State, f: Frame, w: World, t: nat)
    requires t in s.jobs && Numbered(s) && w.approvals.Some?
    ensures Untouched(s, BeginJob(c, s, f, w), t, 1)
  {
    hide Untouched, Numbered, SendOrFail, Refresh, Sendable;
    KeptSame(s, t);
    KeptMore(s, s, t, 0, 1);
    KeptRefresh(s, w, t);
    var u := Refresh(s, w).state;
    KeptMore(s, u, t, 0, 1);
    UntouchedNumbered(s, u, t, 0);
    if !Refused(c, u, f) {
      var v, job := f.transaction, NewJob(c, f, w.clock(f.transaction));
      var e := Begun(v, job.expected, job.properties);
      KeptPutSend(c, u, v, job, Some(e), w.accepts, t);
      KeptTwice(s, u, SendOrFail(c, Note(PutJob(u, v, job), e), v, w.accepts), t, 0, 1);
    }
  }

  lemma KeptFrame(c: Config, s: State, frame: Option<Frame>, w: World, t: nat)
    requires Bounded(s) && Numbered(s) && t in s.jobs && Harmless(s, Receive(frame), w, t)
    ensures Untouched(s, ReceiveFrame(c, s, frame, w), t, 1)
  {
    hide Untouched, Numbered, ReceiveResponse, BeginJob, Drop, Bounded;
    KeptSame(s, t);
    KeptMore(s, s, t, 0, 1);
    if frame.Some? {
      var f := frame.value;
      if f.request != 0 {
        KeptResponse(c, s, f, w, t);
      } else if f.op == CancelledEvent || f.op == PublishedEvent {
        KeptDrop(s, {f.transaction}, t);
        KeptMore(s, Drop(s, {f.transaction}), t, 0, 1);
      } else {
        KeptBegin(c, s, f, w, t);
      }
    }
  }

  lemma KeptCheck(c: Config, s: State, v: nat, w: World, t: nat)
    requires Sendable(s, v) && t in s.jobs && Numbered(s) && v != t
    ensures Untouched(s, CheckJobParts(c, s, v, w), t, 1)
  {
    hide Untouched, Numbered, SendOrFail, Drop;
    var job := s.jobs[v];
    var e := PartsReady(v, PartsOf(job));
    KeptPutSend(c, s, v, job.(phase := Fetching, missing := w.missing), Some(e), w.accepts, t);
    KeptPutSend(c, s, v, job.(phase := ReportDependency, missing := w.missing), None, w.accepts, t);
    KeptDrop(s, {v}, t);
    KeptMore(s, Drop(s, {v}), t, 0, 1);
  }

  lemma KeptLoad(s: State, v: nat, hash: Digest, bytes: seq<byte>, w: World, t: nat)
    requires t in s.jobs && Numbered(s) && v != t
    ensures var o := LoadContent(s, v, hash, bytes, w); Untouched(s, o.state, t, 0) && o.state.jobs == s.jobs
  {}

  lemma KeptImport(c: Config, s: State, v: nat, w: World, t: nat)
    requires v in s.jobs && s.jobs[v].sent == 0 && t in s.jobs && Numbered(s) && v != t && w.approvals.Some?
    ensures Untouched(s, ImportJob(c, s, v, w), t, 1)
  {
    hide Untouched, Numbered, SendOrFail, Drop, Refresh, LoadContent, Sendable;
    var job, u := s.jobs[v], Refresh(s, w).state;
    KeptRefresh(s, w, t);
    KeptMore(s, u, t, 0, 1);
    UntouchedNumbered(s, u, t, 0);
    KeptDrop(u, {v}, t);
    KeptTwice(s, u, Drop(u, {v}), t, 1, 0);
    var d := c.digest(job.bytes);
    if d.Some? {
      KeptLoaded(c, s, u, v, d.value, w, t);
    }
  }

  lemma KeptLoaded(c: Config, s: State, u: State, v: nat, hash: Digest, w: World, t: nat)
    requires Untouched(s, u, t, 0) && v in u.jobs && u.jobs[v].sent == 0 && v != t
    ensures var o := LoadContent(u, v, hash, u.jobs[v].bytes, w);
            && Untouched(s, Drop(o.state, {v}), t, 1)
            && (w.encoded.Some? ==>
                  var k := u.jobs[v].(observation := w.encoded.value, bytes := [], phase := ObserveBegin);
                  && Sendable(PutJob(o.state, v, k), v)
                  && Untouched(s, SendOrFail(c, PutJob(o.state, v, k), v, w.accepts), t, 1))
  {
    hide Untouched, Numbered, SendOrFail, Drop, LoadContent, Sendable;
    UntouchedNumbered(s, u, t, 0);
    KeptLoad(u, v, hash, u.jobs[v].bytes, w, t);
    var l := LoadContent(u, v, hash, u.jobs[v].bytes, w).state;
    KeptTwice(s, u, l, t, 0, 0);
    UntouchedNumbered(s, l, t, 0);
    KeptDrop(l, {v}, t);
    KeptMore(s, l, t, 0, 1);
    KeptTwice(s, l, Drop(l, {v}), t, 1, 0);
    if w.encoded.Some? {
      var k := u.jobs[v].(observation := w.encoded.value, bytes := [], phase := ObserveBegin);
      KeptPutSend(c, l, v, k, None, w.accepts, t);
      KeptTwice(s, l, SendOrFail(c, PutJob(l, v, k), v, w.accepts), t, 0, 1);
    }
  }

  lemma KeptWork(c: Config, s: State, w: World, t: nat)
    requires Bounded(s) && Numbered(s) && t in s.jobs && !Waits(s.jobs[t]) && w.approvals.Some?
    ensures Untouched(s, Work(c, s, w), t, 1)
  {
    hide Untouched, Numbered, CheckJobParts, ImportJob;
    KeptSame(s, t);
    KeptMore(s, s, t, 0, 1);
    if !Idle(s) {
      var v := FirstWaiting(s);
      if s.jobs[v].phase == CheckParts {
        KeptCheck(c, s, v, w, t);
      } else {
        KeptImport(c, s, v, w, t);
      }
    }
  }

  lemma KeptUpdate(c: Config, s: State, w: World, t: nat)
    requires Bounded(s) && Numbered(s) && t in s.jobs && !Waits(s.jobs[t]) && Harmless(s, Update, w, t)
    ensures Untouched(s, UpdateAll(c, s, w), t, 1)
  {
    var late := Late(s, w.clock);
    StillBounded(s, late);
    hide Untouched, Numbered, Drop, Work, Bounded, Waits;
    KeptSame(s, t);
    KeptMore(s, s, t, 0, 1);
    KeptDrop(s, late, t);
    var u := Drop(s, late);
    UntouchedNumbered(s, u, t, 0);
    KeptMore(s, u, t, 0, 1);
    KeptWork(c, u, w, t);
    KeptTwice(s, u, Work(c, u, w), t, 0, 1);
  }

  lemma InvNumbered(c: Config, s: State)
    requires Inv(c, s)
    ensures Numbered(s)
  {
    hide Matches, JobsOk, LoadsOk;
    forall r | r in s.pending ensures r <= s.sequence {
      assert PendingOk(s, r, {});
    }
  }

  /** A harmless input leaves a job that has a request out, that request, and what was sent for it. */
  lemma HarmlessKeeps(c: Config, s: State, input: Input, w: World, t: nat)
    requires Inv(c, s) && t in s.jobs && !Waits(s.jobs[t]) && Harmless(s, input, w, t)
    ensures Bounded(s) && Inv(c, Step(c, s, input, w)) && Untouched(s, Step(c, s, input, w), t, 1)
  {
    StepKeeps(c, s, input, w);
    InvNumbered(c, s);
    hide Inv, Untouched, Numbered, UpdateAll, ReceiveFrame, Bounded;
    match input
    case Receive(frame) => KeptFrame(c, s, frame, w, t);
    case Update => KeptUpdate(c, s, w, t);
    case Fence =>
  }
}
