/**
  What every step of the content exchange keeps, for any sequence of frames, answers and updates: correlation, the
  bound on outstanding requests, the order of the phases, and what a process may hand to the original.
*/
module ContentSafety {
  import opened Basics
  import opened ContentSpec
  import opened Words

  // ---- The coordinator's side of an observation (src/network/content_control.cpp) ----

  datatype Upload = Upload(transaction: nat, total: nat, hash: Digest, bytes: seq<byte>)

  const NO_UPLOAD := Upload(0, 0, ZERO, [])

  /** How the coordinator adds a begin or a chunk to an upload; None when it refuses. */
  function Take(c: Config, u: Upload, f: Frame): Option<Upload> {
    match f.op
    case ObservationBegin =>
      if u.transaction != 0 || f.total < 292 || f.total > 65536 || f.identity == ZERO then None
      else Some(Upload(f.transaction, f.total, f.identity, []))
    case ObservationChunk =>
      if u.transaction != f.transaction || f.data == [] || f.offset != |u.bytes| || |u.bytes| + |f.data| > u.total
      then None
      else Some(u.(bytes := u.bytes + f.data))
    case _ => None
  }

  /** The frames of this transaction since its last observation began, put together. */
  function Uploaded(c: Config, trace: seq<Event>, t: nat): Option<Upload> {
    if trace == [] then None
    else
      var before, e := trace[..|trace| - 1], trace[|trace| - 1];
      if e.transaction != t || !e.Sent? then Uploaded(c, before, t)
      else match e.frame.op
           case ObservationBegin => Take(c, NO_UPLOAD, e.frame)
           case ObservationChunk =>
             (match Uploaded(c, before, t)
              case None => None
              case Some(u) => Take(c, u, e.frame))
           case _ => Uploaded(c, before, t)
  }

  datatype Opening = Opening(expected: Digest, properties: Digest)

  /** The identities with which this transaction last began. */
  function Opened(trace: seq<Event>, t: nat): Option<Opening> {
    if trace == [] then None
    else
      var before, e := trace[..|trace| - 1], trace[|trace| - 1];
      if e.Begun? && e.transaction == t then Some(Opening(e.expected, e.properties)) else Opened(before, t)
  }

  /** The manifest whose parts the original was found to hold since this transaction last began. */
  function PartsHeld(trace: seq<Event>, t: nat): Option<Parts> {
    if trace == [] then None
    else
      var before, e := trace[..|trace| - 1], trace[|trace| - 1];
      if e.transaction != t then PartsHeld(before, t)
      else match e
           case Begun(_, _, _) => None
           case PartsReady(_, parts) => Some(parts)
           case _ => PartsHeld(before, t)
  }

  /** The content the original has imported so far, with the key of each. */
  function Imported(trace: seq<Event>): map<Digest, Key> {
    if trace == [] then map[]
    else WithImport(Imported(trace[..|trace| - 1]), trace[|trace| - 1])
  }

  function WithImport(imported: map<Digest, Key>, e: Event): map<Digest, Key> {
    if e.Loaded? && e.reading.Imports? && e.reading.got.Some? then imported[e.hash := e.reading.got.value] else imported
  }

  lemma OtherEvent(c: Config, trace: seq<Event>, e: Event, t: nat)
    requires e.transaction != t
    ensures Uploaded(c, trace + [e], t) == Uploaded(c, trace, t)
    ensures Opened(trace + [e], t) == Opened(trace, t) && PartsHeld(trace + [e], t) == PartsHeld(trace, t)
  {
    assert (trace + [e])[..|trace|] == trace;
  }

  lemma SentEvent(c: Config, trace: seq<Event>, t: nat, f: Frame)
    ensures var longer := trace + [Sent(t, f)];
            && Opened(longer, t) == Opened(trace, t) && PartsHeld(longer, t) == PartsHeld(trace, t)
            && (f.op == ObservationBegin ==> Uploaded(c, longer, t) == Take(c, NO_UPLOAD, f))
            && (f.op == ObservationChunk && Uploaded(c, trace, t).Some? ==>
                  Uploaded(c, longer, t) == Take(c, Uploaded(c, trace, t).value, f))
            && (f.op != ObservationBegin && f.op != ObservationChunk ==>
                  Uploaded(c, longer, t) == Uploaded(c, trace, t))
  {
    assert (trace + [Sent(t, f)])[..|trace|] == trace;
  }

  // ---- What holds of one job ----

  predicate PartialDependencies(j: Job) {
    || (j.hashBytes == [] && j.hashTotal == 0 && j.hash == ZERO)
    || (0 < |j.hashBytes| < j.hashTotal <= MAX_DEPENDENCY && j.hash != ZERO)
  }

  predicate PartialPng(j: Job) {
    j.bytes == [] || |j.bytes| < j.total <= MAX_PNG
  }

  /** A player is past the verified manifest and the check of its parts. */
  predicate Cleared(c: Config, trace: seq<Event>, t: nat, j: Job) {
    c.player ==> Verified(c, j) && PartsHeld(trace, t) == Some(PartsOf(j))
  }

  /** The coordinator holds exactly the beginning of the observation that this job counts as sent. */
  predicate Uploading(c: Config, trace: seq<Event>, t: nat, j: Job)
    requires j.sent <= |j.observation|
  {
    && c.digest(j.observation).Some?
    && var hash := c.digest(j.observation).value;
       hash != ZERO ==>
         Uploaded(c, trace, t) == Some(Upload(t, |j.observation|, hash, j.observation[..j.sent]))
  }

  predicate Common(c: Config, trace: seq<Event>, t: nat, j: Job) {
    && t != 0
    && Opened(trace, t) == Some(Opening(j.expected, j.properties))
    && (c.player ==> j.expected != ZERO && MIN_PNG <= j.total <= MAX_PNG)
    && j.sent <= |j.observation| && (Observing(j) || j.sent == 0)
    && (Observing(j) ==> 292 <= |j.observation| <= 65536)
  }

  /** The job in its phase, before or after the request of that phase is sent. */
  predicate Ready(c: Config, trace: seq<Event>, t: nat, j: Job, sent: bool) {
    && Common(c, trace, t, j)
    && match j.phase
       case NeedDependencies => c.player && PartialDependencies(j) && j.bytes == []
       case CheckParts => c.player && Verified(c, j) && j.bytes == []
       case ReportDependency => c.player && Verified(c, j) && j.bytes == []
       case Fetching => Cleared(c, trace, t, j) && PartialPng(j)
       case Import => Cleared(c, trace, t, j) && MIN_PNG <= |j.bytes| == j.total <= MAX_PNG
       case ObserveBegin => j.sent == 0 && (sent ==> Uploading(c, trace, t, j))
       case ObserveChunk => Uploading(c, trace, t, j) && (sent || j.sent < |j.observation|)
       case ObserveEnd => Uploading(c, trace, t, j) && j.sent == |j.observation|
  }

  lemma OtherJob(c: Config, trace: seq<Event>, e: Event, t: nat, j: Job, sent: bool)
    requires Ready(c, trace, t, j, sent) && e.transaction != t
    ensures Ready(c, trace + [e], t, j, sent)
  {
    hide Verified, Uploaded, Opened, PartsHeld;
    OtherEvent(c, trace, e, t);
  }

  /** Sending the frame of its phase leaves a job waiting for the answer to exactly that frame. */
  lemma AfterSend(c: Config, trace: seq<Event>, t: nat, j: Job, r: nat)
    requires Ready(c, trace, t, j, false) && NextFrame(c, t, j).Some?
    ensures var f := NextFrame(c, t, j).value.(request := r);
            Ready(c, trace + [Sent(t, f)], t, Advanced(j), true)
  {
    hide Verified, Uploaded, Opened, PartsHeld;
    var f := NextFrame(c, t, j).value.(request := r);
    SentEvent(c, trace, t, f);
    if j.phase == ObserveChunk {
      assert j.observation[..j.sent] + j.observation[j.sent..ChunkEnd(j)] == j.observation[..ChunkEnd(j)];
    }
  }

  // ---- The whole state ----

  function OpOf(phase: Phase): Op {
    match phase
    case NeedDependencies => Dependencies
    case ReportDependency => DependencyFailure
    case Fetching => Fetch
    case ObserveBegin => ObservationBegin
    case ObserveChunk => ObservationChunk
    case ObserveEnd => ObservationEnd
    case _ => OtherOp
  }

  /** The request a job in this phase waits for. */
  predicate Matches(p: Pending, j: Job) {
    && p.op == OpOf(j.phase) && !Waits(j)
    && (j.phase == NeedDependencies ==> p.offset == |j.hashBytes|)
    && (j.phase == Fetching ==> p.offset == |j.bytes|)
  }

  predicate PendingOk(s: State, r: nat, handled: set<nat>)
    requires r in s.pending
  {
    var p := s.pending[r];
    1 <= r <= s.sequence && p.transaction in s.jobs && p.transaction !in handled && Matches(p, s.jobs[p.transaction])
  }

  ghost predicate Awaited(s: State, t: nat) {
    exists r :: r in s.pending && s.pending[r].transaction == t
  }

  /**
    A load of content by the original: digest, approval, identity; for a player the part check of a manifest that was
    read from bytes with its digest and names this content, what the transaction began with, and the installation.
  */
  predicate LoadOk(c: Config, before: seq<Event>, e: Event)
    requires e.Loaded?
  {
    && c.digest(e.bytes) == Some(e.hash) && e.hash in e.approved && e.hash != ZERO
    && Opened(before, e.transaction).Some?
    && var began := Opened(before, e.transaction).value;
       && (began.expected == ZERO || began.expected == e.hash)
       && (c.player ==>
             && began.expected == e.hash && PartsHeld(before, e.transaction).Some?
             && var parts := PartsHeld(before, e.transaction).value;
                && c.digest(parts.bytes) == Some(parts.hash) && c.decode(parts.bytes) == Some(parts.manifest)
                && var m := parts.manifest;
                   && m.png == e.hash && m.properties == began.properties && m.pngBytes == |e.bytes|
                   && m.profile == c.profile && m.world == c.world)
  }

  /** Content imported before is inspected under its key; only other content is imported. */
  predicate ReadingOk(before: seq<Event>, e: Event)
    requires e.Loaded?
  {
    match e.reading
    case Inspects(key, _) => e.hash in Imported(before) && Imported(before)[e.hash] == key
    case Imports(_) => e.hash !in Imported(before)
  }

  predicate LoadsOk(c: Config, trace: seq<Event>) {
    forall i :: 0 <= i < |trace| && trace[i].Loaded? ==>
      LoadOk(c, trace[..i], trace[i]) && ReadingOk(trace[..i], trace[i])
  }

  ghost predicate RequestsOk(s: State, handled: set<nat>) {
    forall r :: r in s.pending ==> PendingOk(s, r, handled)
  }

  ghost predicate OneEach(s: State) {
    forall q, r :: q in s.pending && r in s.pending ==>
      s.pending[q].transaction == s.pending[r].transaction ==> q == r
  }

  ghost predicate JobsOk(c: Config, s: State, handled: set<nat>) {
    forall t :: t in s.jobs && t !in handled ==>
      Ready(c, s.trace, t, s.jobs[t], true) && (Waits(s.jobs[t]) || Awaited(s, t))
  }

  /** Everything that holds, except that the jobs being handled have no request and may be in between. */
  ghost predicate Core(c: Config, s: State, handled: set<nat>) {
    && |s.jobs| <= 2 && s.sequence <= MAX_SEQUENCE && ZERO !in s.approved
    && RequestsOk(s, handled) && OneEach(s) && JobsOk(c, s, handled) && LoadsOk(c, s.trace)
    && s.imported == Imported(s.trace)
  }

  ghost predicate Inv(c: Config, s: State) {
    Core(c, s, {})
  }

  lemma InvBounded(c: Config, s: State)
    requires Inv(c, s)
    ensures Bounded(s)
  {
    hide LoadsOk, PendingOk, Awaited, Verified, Uploading, Cleared, Opened;
  }

  lemma StillBounded(s: State, ts: set<nat>)
    requires Bounded(s)
    ensures Bounded(Drop(s, ts))
  {}

  lemma ApplyBounded(c: Config, s: State, t: nat, f: Frame, p: Pending)
    requires t in s.jobs && Bounded(s)
    ensures var o := ApplyResponse(c, s, t, f, p); o.ok ==> Sendable(o.state, t)
  {
    hide Verified, Drop;
  }

  /** While a job is handled, at most one request is outstanding, so the capacity refusal never fires. */
  lemma CapacityFree(c: Config, s: State, t: nat)
    requires Core(c, s, {t}) && t in s.jobs
    ensures |s.pending| <= 1
  {
    hide Ready, LoadsOk, Awaited, Matches;
    if |s.pending| >= 2 {
      var q :| q in s.pending;
      var rest := s.pending.Keys - {q};
      assert |rest| == |s.pending| - 1;
      var r :| r in rest;
      var a, b := s.pending[q].transaction, s.pending[r].transaction;
      assert PendingOk(s, q, {t}) && PendingOk(s, r, {t}) && a != b;
      SubsetSize({t, a, b}, s.jobs.Keys);
    }
  }

  lemma LoadsGrow(c: Config, trace: seq<Event>, e: Event)
    requires LoadsOk(c, trace) && (e.Loaded? ==> LoadOk(c, trace, e) && ReadingOk(trace, e))
    ensures LoadsOk(c, trace + [e]) && Imported(trace + [e]) == WithImport(Imported(trace), e)
  {
    hide LoadOk, ReadingOk;
    var longer := trace + [e];
    assert longer[..|trace|] == trace;
    forall i | 0 <= i < |longer| && longer[i].Loaded?
      ensures LoadOk(c, longer[..i], longer[i]) && ReadingOk(longer[..i], longer[i])
    {
      assert longer[..i] == trace[..i];
      assert i == |trace| ==> longer[..i] == trace;
    }
  }

  function Remember(s: State, e: Event): State {
    Note(s, e).(imported := WithImport(s.imported, e))
  }

  lemma NoteJobs(c: Config, s: State, u: State, t: nat, e: Event)
    requires RequestsOk(s, {t}) && JobsOk(c, s, {t}) && e.transaction == t
    requires u == s.(trace := s.trace + [e], imported := u.imported)
    ensures RequestsOk(u, {t}) && JobsOk(c, u, {t})
  {
    hide Ready, Matches;
    forall v | v in u.jobs && v !in {t}
      ensures Ready(c, u.trace, v, u.jobs[v], true) && (Waits(u.jobs[v]) || Awaited(u, v))
    {
      OtherJob(c, s.trace, e, v, s.jobs[v], true);
      AwaitedFrame(s, u, v);
    }
    forall r | r in u.pending ensures PendingOk(u, r, {t}) {
      assert PendingOk(s, r, {t});
    }
  }

  /** An event of a handled job leaves everything else alone. */
  lemma NoteKeeps(c: Config, s: State, t: nat, e: Event)
    requires Core(c, s, {t}) && e.transaction == t
    requires e.Loaded? ==> LoadOk(c, s.trace, e) && ReadingOk(s.trace, e)
    ensures Core(c, Remember(s, e), {t}) && (!e.Loaded? ==> Core(c, Note(s, e), {t}))
  {
    var u := Remember(s, e);
    assert !e.Loaded? ==> u == Note(s, e);
    hide LoadOk, ReadingOk, LoadsOk, RequestsOk, JobsOk, Imported;
    LoadsGrow(c, s.trace, e);
    NoteJobs(c, s, u, t, e);
    assert OneEach(u);
  }

  lemma AwaitedFrame(s: State, u: State, t: nat)
    requires forall r :: r in s.pending && s.pending[r].transaction == t ==>
               r in u.pending && u.pending[r] == s.pending[r]
    ensures Awaited(s, t) ==> Awaited(u, t)
  {}

  lemma PutKeeps(c: Config, s: State, t: nat, job: Job)
    requires Core(c, s, {t}) && t in s.jobs
    ensures Core(c, PutJob(s, t, job), {t})
  {
    hide Ready, LoadsOk, Matches;
    var u := PutJob(s, t, job);
    assert u.jobs.Keys == s.jobs.Keys;
    forall v | v in u.jobs && v !in {t}
      ensures Ready(c, u.trace, v, u.jobs[v], true) && (Waits(u.jobs[v]) || Awaited(u, v))
    {
      AwaitedFrame(s, u, v);
    }
    forall r | r in u.pending ensures PendingOk(u, r, {t}) {
      assert PendingOk(s, r, {t});
    }
  }

  /** A handled job that waits for the original, or whose request is out, is handled no more. */
  lemma Settle(c: Config, s: State, t: nat)
    requires Core(c, s, {t})
    requires t in s.jobs ==> Ready(c, s.trace, t, s.jobs[t], true) && Waits(s.jobs[t])
    ensures Inv(c, s)
  {
    hide Ready, LoadsOk, Matches, Awaited;
    forall r | r in s.pending ensures PendingOk(s, r, {}) {
      assert PendingOk(s, r, {t});
    }
    forall v | v in s.jobs ensures Ready(c, s.trace, v, s.jobs[v], true) && (Waits(s.jobs[v]) || Awaited(s, v)) {
      assert v == t || v !in {t};
    }
  }

  lemma RequestsDropped(s: State, ts: set<nat>, handled: set<nat>)
    requires handled <= ts && RequestsOk(s, handled)
    ensures RequestsOk(Drop(s, ts), {})
  {
    hide Matches;
    var u := Drop(s, ts);
    forall r | r in u.pending ensures PendingOk(u, r, {}) {
      assert PendingOk(s, r, handled);
    }
  }

  lemma AwaitedDropped(s: State, ts: set<nat>, t: nat)
    requires t !in ts && Awaited(s, t)
    ensures Awaited(Drop(s, ts), t)
  {
    var r :| r in s.pending && s.pending[r].transaction == t;
    assert r in Drop(s, ts).pending;
  }

  lemma JobsDropped(c: Config, s: State, ts: set<nat>, handled: set<nat>)
    requires JobsOk(c, s, handled) && handled <= ts
    ensures JobsOk(c, Drop(s, ts), {})
  {
    hide Ready, Awaited, Without, Waits;
    var u := Drop(s, ts);
    forall v | v in u.jobs
      ensures Ready(c, u.trace, v, u.jobs[v], true) && (Waits(u.jobs[v]) || Awaited(u, v))
    {
      assert v !in handled && v in s.jobs && u.jobs[v] == s.jobs[v];
      if !Waits(s.jobs[v]) {
        AwaitedDropped(s, ts, v);
      }
    }
  }

  lemma DropKeeps(c: Config, s: State, ts: set<nat>, handled: set<nat>)
    requires Core(c, s, handled) && handled <= ts
    ensures Inv(c, Drop(s, ts))
  {
    assert OneEach(Drop(s, ts));
    hide RequestsOk, OneEach, JobsOk, LoadsOk, Without;
    RequestsDropped(s, ts, handled);
    JobsDropped(c, s, ts, handled);
    SubsetSize((s.jobs - ts).Keys, s.jobs.Keys);
  }

  lemma RemoveKeeps(c: Config, s: State, t: nat, handled: set<nat>)
    requires Core(c, s, handled) && handled <= {t}
    ensures Inv(c, Remove(s, t))
  {
    hide Core, Drop;
    DropKeeps(c, s, {t}, handled);
  }

  lemma NextFrameFits(c: Config, s: State, t: nat)
    requires t in s.jobs && Ready(c, s.trace, t, s.jobs[t], false) && !Waits(s.jobs[t])
    ensures Sendable(s, t)
    ensures var next := NextFrame(c, t, s.jobs[t]);
            next.Some? ==>
              && next.value.transaction == t
              && Matches(Pending(t, next.value.op, next.value.offset), Advanced(s.jobs[t]))
  {
    hide Verified, Uploading, Cleared, Opened;
  }

  lemma RequestKeeps(c: Config, s: State, t: nat, frame: Frame, accepts: bool)
    requires Core(c, s, {t}) && t in s.jobs && frame.transaction == t
    requires Matches(Pending(t, frame.op, frame.offset), s.jobs[t])
    requires Ready(c, s.trace + [Sent(t, frame.(request := s.sequence + 1))], t, s.jobs[t], true)
    ensures var o := Request(s, frame, accepts);
            && (o.ok <==> accepts && s.sequence < MAX_SEQUENCE)
            && (o.ok ==> Inv(c, o.state)) && (!o.ok ==> Core(c, o.state, {t}))
  {
    hide Ready, Matches, Core;
    CapacityFree(c, s, t);
    var o := Request(s, frame, accepts);
    WithinLimits(c, s, {t});
    if s.sequence < MAX_SEQUENCE {
      FieldsKeep(c, s, s.(sequence := s.sequence + 1), {t});
    }
    if o.ok {
      var e := Sent(t, frame.(request := s.sequence + 1));
      NoteKeeps(c, s, t, e);
      NewRequest(c, Note(s, e), t, Pending(t, frame.op, frame.offset));
      assert o.state == WithRequest(Note(s, e), Pending(t, frame.op, frame.offset));
    }
  }

  /** The request counter, the approvals and the imported keys do not matter to jobs and requests. */
  lemma FieldsKeep(c: Config, s: State, u: State, handled: set<nat>)
    requires Core(c, s, handled) && u.jobs == s.jobs && u.pending == s.pending
    requires u.trace == s.trace && u.imported == s.imported
    requires s.sequence <= u.sequence <= MAX_SEQUENCE && ZERO !in u.approved
    ensures Core(c, u, handled)
  {
    hide Ready, LoadsOk, Matches, Awaited;
    forall r | r in u.pending ensures PendingOk(u, r, handled) {
      assert PendingOk(s, r, handled);
    }
    forall v | v in u.jobs && v !in handled
      ensures Ready(c, u.trace, v, u.jobs[v], true) && (Waits(u.jobs[v]) || Awaited(u, v))
    {
      AwaitedFrame(s, u, v);
    }
  }

  lemma WithinLimits(c: Config, s: State, handled: set<nat>)
    requires Core(c, s, handled)
    ensures s.sequence <= MAX_SEQUENCE && ZERO !in s.approved
  {}

  function WithRequest(s: State, p: Pending): State {
    s.(sequence := s.sequence + 1, pending := s.pending[s.sequence + 1 := p])
  }

  lemma NewRequest(c: Config, s: State, t: nat, p: Pending)
    requires Core(c, s, {t}) && t in s.jobs && p.transaction == t && Matches(p, s.jobs[t])
    requires Ready(c, s.trace, t, s.jobs[t], true) && s.sequence < MAX_SEQUENCE
    ensures Inv(c, WithRequest(s, p))
  {
    hide Ready, LoadsOk, Matches;
    var u := WithRequest(s, p);
    forall r | r in s.pending ensures r <= s.sequence {
      assert PendingOk(s, r, {t});
    }
    forall v | v in u.jobs
      ensures Ready(c, u.trace, v, u.jobs[v], true) && (Waits(u.jobs[v]) || Awaited(u, v))
    {
      if v == t {
        assert u.pending[s.sequence + 1].transaction == t;
      } else {
        assert v !in {t};
        AwaitedFrame(s, u, v);
      }
    }
    forall r | r in u.pending ensures PendingOk(u, r, {}) {
      assert r != s.sequence + 1 ==> PendingOk(s, r, {t});
    }
    forall q, r | q in u.pending && r in u.pending && u.pending[q].transaction == u.pending[r].transaction
      ensures q == r
    {
      assert q != s.sequence + 1 ==> PendingOk(s, q, {t});
      assert r != s.sequence + 1 ==> PendingOk(s, r, {t});
    }
  }

  /** The next request of a handled job goes out whenever there is one, output takes it and numbers remain. */
  lemma SendKeeps(c: Config, s: State, t: nat, accepts: bool)
    requires Core(c, s, {t}) && t in s.jobs && Ready(c, s.trace, t, s.jobs[t], false) && !Waits(s.jobs[t])
    ensures Sendable(s, t)
    ensures var o := SendNext(c, s, t, accepts);
            && (o.ok <==> NextFrame(c, t, s.jobs[t]).Some? && accepts && s.sequence < MAX_SEQUENCE)
            && (o.ok ==> Inv(c, o.state)) && (!o.ok ==> Core(c, o.state, {t}))
    ensures Inv(c, SendOrFail(c, s, t, accepts))
  {
    hide Ready, Core, Request, Matches, Remove, NextFrame;
    NextFrameFits(c, s, t);
    var next := NextFrame(c, t, s.jobs[t]);
    if next.Some? {
      var job := Advanced(s.jobs[t]);
      AfterSend(c, s.trace, t, s.jobs[t], s.sequence + 1);
      PutKeeps(c, s, t, job);
      RequestKeeps(c, PutJob(s, t, job), t, next.value, accepts);
    }
    var o := SendNext(c, s, t, accepts);
    if !o.ok {
      RemoveKeeps(c, o.state, t, {t});
    }
  }

  /** A handled job is changed and its next request is sent. */
  lemma PutThenSend(c: Config, s: State, t: nat, k: Job, accepts: bool)
    requires Core(c, s, {t}) && t in s.jobs && Ready(c, s.trace, t, k, false) && !Waits(k)
    ensures Sendable(PutJob(s, t, k), t) && Inv(c, SendOrFail(c, PutJob(s, t, k), t, accepts))
  {
    hide Core, Ready, SendOrFail, Waits;
    PutKeeps(c, s, t, k);
    SendKeeps(c, PutJob(s, t, k), t, accepts);
  }

  lemma NoteThenSend(c: Config, s: State, t: nat, e: Event, accepts: bool)
    requires Core(c, s, {t}) && t in s.jobs && e.transaction == t && !e.Loaded?
    requires Ready(c, s.trace + [e], t, s.jobs[t], false) && !Waits(s.jobs[t])
    ensures Sendable(Note(s, e), t) && Inv(c, SendOrFail(c, Note(s, e), t, accepts))
  {
    hide Core, Ready, SendOrFail, Waits;
    NoteKeeps(c, s, t, e);
    SendKeeps(c, Note(s, e), t, accepts);
  }

  // ---- Every handler ----

  /** After a response was applied: the job sends next, waits for the original, or is gone. */
  ghost predicate Applied(c: Config, o: Outcome, t: nat) {
    && (o.ok ==>
          && Core(c, o.state, {t}) && t in o.state.jobs && !Waits(o.state.jobs[t])
          && Ready(c, o.state.trace, t, o.state.jobs[t], false))
    && (!o.ok ==> Inv(c, o.state))
  }

  /** A handled job whose request was just answered. */
  ghost predicate Answered(c: Config, s: State, t: nat, p: Pending) {
    && Core(c, s, {t}) && t in s.jobs && Matches(p, s.jobs[t]) && Ready(c, s.trace, t, s.jobs[t], true)
  }

  lemma DependenciesApplied(c: Config, s: State, t: nat, f: Frame, p: Pending)
    requires Answered(c, s, t, p)
    ensures Applied(c, ReceiveDependencies(c, s, t, f, p), t)
  {
    hide Core, Verified, Opened, Remove;
    RemoveKeeps(c, s, t, {t});
    var o := ReceiveDependencies(c, s, t, f, p);
    if DependencyChunkOk(s.jobs[t], f, p) {
      var more := s.jobs[t].(hashTotal := f.total, hash := f.identity, hashBytes := s.jobs[t].hashBytes + f.data);
      if |more.hashBytes| != more.hashTotal {
        PutKeeps(c, s, t, more);
      } else if c.decode(more.hashBytes).Some? {
        var full := more.(dependencies := c.decode(more.hashBytes).value);
        VerifiedPhase(c, full, CheckParts);
        PutKeeps(c, s, t, full.(phase := CheckParts));
        if Verified(c, full) {
          Settle(c, o.state, t);
        }
      }
    }
  }

  lemma VerifiedPhase(c: Config, j: Job, phase: Phase)
    ensures Verified(c, j.(phase := phase)) == Verified(c, j)
  {}

  /** The verified manifest does not depend on what else a job collects. */
  lemma VerifiedFrame(c: Config, j: Job, k: Job)
    requires Verified(c, j) && k.hashBytes == j.hashBytes && k.hash == j.hash && k.dependencies == j.dependencies
    requires k.expected == j.expected && k.properties == j.properties && k.total == j.total
    ensures Verified(c, k)
  {}

  lemma FetchApplied(c: Config, s: State, t: nat, f: Frame, p: Pending)
    requires Answered(c, s, t, p)
    ensures Applied(c, ReceiveFetch(s, t, f, p), t)
  {
    hide Core, Verified, Opened, PartsHeld, Remove;
    RemoveKeeps(c, s, t, {t});
    var o := ReceiveFetch(s, t, f, p);
    if FetchChunkOk(s.jobs[t], f, p) {
      var more := s.jobs[t].(total := f.total, bytes := s.jobs[t].bytes + f.data);
      if c.player {
        VerifiedFrame(c, s.jobs[t], more);
        VerifiedFrame(c, more, more.(phase := Import));
      }
      PutKeeps(c, s, t, o.state.jobs[t]);
      if |more.bytes| == more.total {
        Settle(c, o.state, t);
      }
    }
  }

  lemma ObservationApplied(c: Config, s: State, t: nat, p: Pending, phase: Phase)
    requires Answered(c, s, t, p)
    requires p.op == ObservationBegin || p.op == ObservationChunk
    requires var j := s.jobs[t];
             phase == if p.op == ObservationBegin || j.sent < |j.observation| then ObserveChunk else ObserveEnd
    ensures Applied(c, Outcome(PutJob(s, t, s.jobs[t].(phase := phase)), true), t)
  {
    hide Core, Verified, Opened, PartsHeld, Uploaded;
    PutKeeps(c, s, t, s.jobs[t].(phase := phase));
  }

  lemma ResponseApplied(c: Config, s: State, t: nat, f: Frame, p: Pending)
    requires Answered(c, s, t, p) && f.op == p.op
    ensures Applied(c, ApplyResponse(c, s, t, f, p), t)
  {
    hide Core, Ready, ReceiveDependencies, ReceiveFetch, Remove;
    RemoveKeeps(c, s, t, {t});
    match f.op
    case Dependencies => DependenciesApplied(c, s, t, f, p);
    case Fetch => FetchApplied(c, s, t, f, p);
    case ObservationBegin => ObservationApplied(c, s, t, p, ObserveChunk);
    case ObservationChunk =>
      var j := s.jobs[t];
      ObservationApplied(c, s, t, p, if j.sent < |j.observation| then ObserveChunk else ObserveEnd);
    case _ =>
  }

  /** Taking a request off the list leaves its job handled. */
  lemma TakeAnswer(c: Config, s: State, r: nat)
    requires Inv(c, s) && r in s.pending
    ensures Answered(c, s.(pending := s.pending - {r}), s.pending[r].transaction, s.pending[r])
  {
    hide Ready, LoadsOk, Matches;
    var p := s.pending[r];
    var t, u := p.transaction, s.(pending := s.pending - {r});
    assert PendingOk(s, r, {});
    forall q | q in u.pending ensures PendingOk(u, q, {t}) {
      assert PendingOk(s, q, {});
    }
    forall v | v in u.jobs && v !in {t}
      ensures Ready(c, u.trace, v, u.jobs[v], true) && (Waits(u.jobs[v]) || Awaited(u, v))
    {
      AwaitedFrame(s, u, v);
    }
  }

  lemma ResponseKeeps(c: Config, s: State, f: Frame, w: World)
    requires Inv(c, s)
    ensures Bounded(s) && Inv(c, ReceiveResponse(c, s, f, w))
  {
    InvBounded(c, s);
    hide Core, Ready, ApplyResponse, SendOrFail, Remove, Matches;
    if f.request in s.pending {
      var p := s.pending[f.request];
      var t, u := p.transaction, s.(pending := s.pending - {f.request});
      TakeAnswer(c, s, f.request);
      RemoveKeeps(c, u, t, {t});
      if f.transaction == t && f.op == p.op && !f.failed && f.op != DependencyFailure {
        var o := ApplyResponse(c, u, t, f, p);
        ResponseApplied(c, u, t, f, p);
        if o.ok {
          SendKeeps(c, o.state, t, w.accepts);
        }
      }
    }
  }

  lemma FenceKeeps(c: Config, s: State)
    requires Inv(c, s)
    ensures Inv(c, Fenced(s))
  {
    hide Ready, LoadsOk;
  }

  lemma RefreshKeeps(c: Config, s: State, w: World)
    requires Inv(c, s)
    ensures Inv(c, Refresh(s, w).state) && Refresh(s, w).state.trace == s.trace
    ensures Refresh(s, w).ok ==> Refresh(s, w).state.jobs == s.jobs
  {
    hide Core;
    WithinLimits(c, s, {});
    FenceKeeps(c, s);
    if w.approvals.Some? {
      FieldsKeep(c, s, s.(approved := w.approvals.value), {});
    } else {
      FieldsKeep(c, Fenced(s), Fenced(s).(approved := {}), {});
    }
  }

  /** A new job starts handled: nothing is pending for its transaction. */
  lemma StartHandled(c: Config, s: State, t: nat, j: Job)
    requires Inv(c, s) && t !in s.jobs && |s.jobs| < 2
    ensures Core(c, PutJob(s, t, j), {t})
  {
    hide Ready, LoadsOk, Matches;
    var u := PutJob(s, t, j);
    forall r | r in u.pending ensures PendingOk(u, r, {t}) {
      assert PendingOk(s, r, {});
    }
    forall v | v in u.jobs && v !in {t} ensures Waits(u.jobs[v]) || Awaited(u, v) {
      AwaitedFrame(s, u, v);
    }
  }

  lemma BegunReady(c: Config, trace: seq<Event>, f: Frame, w: World)
    requires f.transaction != 0 && (c.player ==> f.identity != ZERO && MIN_PNG <= f.total <= MAX_PNG)
    ensures var t, job := f.transaction, NewJob(c, f, w.clock(f.transaction));
            !Waits(job) && Ready(c, trace + [Begun(t, job.expected, job.properties)], t, job, false)
  {
    var t, job := f.transaction, NewJob(c, f, w.clock(f.transaction));
    assert (trace + [Begun(t, job.expected, job.properties)])[..|trace|] == trace;
  }

  lemma BeginKeeps(c: Config, s: State, f: Frame, w: World)
    requires Inv(c, s)
    ensures Inv(c, BeginJob(c, s, f, w))
  {
    RefreshKeeps(c, s, w);
    var o := Refresh(s, w);
    RefreshedApprovals(s, w);
    hide Core, SendOrFail, Refresh, Ready, NewJob, Waits;
    if f.transaction != 0 && f.op == (if c.player then LoadEvent else ValidateEvent) && o.ok &&
       !Refused(c, o.state, f) {
      var t, job := f.transaction, NewJob(c, f, w.clock(f.transaction));
      BegunReady(c, o.state.trace, f, w);
      StartHandled(c, o.state, t, job);
      NoteThenSend(c, PutJob(o.state, t, job), t, Begun(t, job.expected, job.properties), w.accepts);
    }
  }

  lemma RefreshedApprovals(s: State, w: World)
    ensures Refresh(s, w).ok ==> ZERO !in Refresh(s, w).state.approved
  {}

  lemma FrameKeeps(c: Config, s: State, frame: Option<Frame>, w: World)
    requires Inv(c, s)
    ensures Bounded(s) && Inv(c, ReceiveFrame(c, s, frame, w))
  {
    InvBounded(c, s);
    hide Core, ReceiveResponse, BeginJob, Remove;
    if s.approved != {} && frame.Some? {
      var f := frame.value;
      if f.request != 0 {
        ResponseKeeps(c, s, f, w);
      } else {
        RemoveKeeps(c, s, f.transaction, {});
        BeginKeeps(c, s, f, w);
      }
    }
  }

  /** A job that waits for the original has no request, so it can be handled. */
  lemma WaitingHandled(c: Config, s: State, t: nat)
    requires Inv(c, s) && t in s.jobs && Waits(s.jobs[t])
    ensures Core(c, s, {t}) && Ready(c, s.trace, t, s.jobs[t], true) && Sendable(s, t)
  {
    hide LoadsOk, Verified, Opened;
    forall r | r in s.pending ensures PendingOk(s, r, {t}) {
      assert PendingOk(s, r, {});
    }
  }

  lemma CheckedReady(c: Config, trace: seq<Event>, t: nat, j: Job, missing: Key)
    requires Ready(c, trace, t, j, true) && j.phase == CheckParts
    ensures Ready(c, trace + [PartsReady(t, PartsOf(j))], t, j.(phase := Fetching, missing := missing), false)
    ensures Ready(c, trace, t, j.(phase := ReportDependency, missing := missing), false)
  {
    hide Verified, Uploaded;
    var k := j.(phase := Fetching, missing := missing);
    VerifiedFrame(c, j, k);
    VerifiedFrame(c, j, j.(phase := ReportDependency, missing := missing));
    var e := PartsReady(t, PartsOf(j));
    assert (trace + [e])[..|trace|] == trace;
  }

  lemma CheckKeeps(c: Config, s: State, t: nat, w: World)
    requires Inv(c, s) && t in s.jobs && s.jobs[t].phase == CheckParts
    ensures Sendable(s, t) && Inv(c, CheckJobParts(c, s, t, w))
  {
    WaitingHandled(c, s, t);
    hide Core, SendOrFail, Remove, Ready;
    RemoveKeeps(c, s, t, {t});
    var j := s.jobs[t];
    CheckedReady(c, s.trace, t, j, w.missing);
    if w.held {
      var k := j.(phase := Fetching, missing := w.missing);
      PutKeeps(c, s, t, k);
      NoteThenSend(c, PutJob(s, t, k), t, PartsReady(t, PartsOf(j)), w.accepts);
    } else if w.missing.group != 0 && w.missing.instance != 0 {
      var k := j.(phase := ReportDependency, missing := w.missing);
      PutThenSend(c, s, t, k, w.accepts);
    }
  }

  /** Both readings of this content are admitted, where they apply. */
  ghost predicate LoadAllowed(c: Config, s: State, t: nat, hash: Digest)
    requires t in s.jobs
  {
    forall reading: Reading :: LoadOk(c, s.trace, Loaded(t, hash, s.jobs[t].bytes, s.approved, reading))
  }

  /** What a job in the import phase hands to the original satisfies the whole admission rule. */
  lemma ImportAllowed(c: Config, s: State, t: nat, hash: Digest)
    requires Core(c, s, {t}) && t in s.jobs && s.jobs[t].phase == Import
    requires Ready(c, s.trace, t, s.jobs[t], true)
    requires c.digest(s.jobs[t].bytes) == Some(hash) && hash in s.approved
    requires s.jobs[t].expected == ZERO || s.jobs[t].expected == hash
    ensures LoadAllowed(c, s, t, hash)
  {
    hide LoadsOk, Imported;
  }

  lemma LoadKeeps(c: Config, s: State, t: nat, hash: Digest, w: World)
    requires Core(c, s, {t}) && t in s.jobs && LoadAllowed(c, s, t, hash)
    ensures var o := LoadContent(s, t, hash, s.jobs[t].bytes, w);
            && Core(c, o.state, {t}) && o.state.jobs == s.jobs
            && Opened(o.state.trace, t) == Opened(s.trace, t)
  {
    ImportsKnown(c, s, {t});
    hide Core, LoadOk, Imported;
    var known := hash in s.imported;
    if known || w.staged {
      var e := Loaded(t, hash, s.jobs[t].bytes, s.approved,
                      if known then Inspects(s.imported[hash], w.inspected) else Imports(w.loaded));
      NoteKeeps(c, s, t, e);
      assert LoadContent(s, t, hash, s.jobs[t].bytes, w).state == Remember(s, e);
      assert (s.trace + [e])[..|s.trace|] == s.trace;
    }
  }

  lemma ImportsKnown(c: Config, s: State, handled: set<nat>)
    requires Core(c, s, handled)
    ensures s.imported == Imported(s.trace)
  {}

  lemma ImportedReady(c: Config, before: seq<Event>, trace: seq<Event>, t: nat, j: Job, observation: Encoded)
    requires Ready(c, before, t, j, true) && j.phase == Import && Opened(trace, t) == Opened(before, t)
    ensures Ready(c, trace, t, j.(observation := observation, bytes := [], phase := ObserveBegin), false)
  {
    hide Verified, Opened, PartsHeld;
  }

  /** The approved bytes are handed over and their observation is announced, or the job ends. */
  lemma LoadAndAnnounce(c: Config, s: State, t: nat, hash: Digest, w: World)
    requires Core(c, s, {t}) && t in s.jobs && s.jobs[t].phase == Import
    requires Ready(c, s.trace, t, s.jobs[t], true)
    requires c.digest(s.jobs[t].bytes) == Some(hash) && hash in s.approved
    requires s.jobs[t].expected == ZERO || s.jobs[t].expected == hash
    ensures var job, o := s.jobs[t], LoadContent(s, t, hash, s.jobs[t].bytes, w);
            && Inv(c, Remove(o.state, t))
            && (w.encoded.Some? ==>
                  var u := PutJob(o.state, t, job.(observation := w.encoded.value, bytes := [], phase := ObserveBegin));
                  Sendable(u, t) && Inv(c, SendOrFail(c, u, t, w.accepts)))
  {
    ImportAllowed(c, s, t, hash);
    hide Core, SendOrFail, Remove, LoadContent, LoadAllowed, Ready;
    var job := s.jobs[t];
    LoadKeeps(c, s, t, hash, w);
    var o := LoadContent(s, t, hash, job.bytes, w);
    RemoveKeeps(c, o.state, t, {t});
    if w.encoded.Some? {
      ImportedReady(c, s.trace, o.state.trace, t, job, w.encoded.value);
      PutThenSend(c, o.state, t, job.(observation := w.encoded.value, bytes := [], phase := ObserveBegin), w.accepts);
    }
  }

  lemma ImportKeeps(c: Config, s: State, t: nat, w: World)
    requires Inv(c, s) && t in s.jobs && s.jobs[t].phase == Import
    ensures Sendable(s, t) && s.jobs[t].sent == 0 && Inv(c, ImportJob(c, s, t, w))
  {
    WaitingHandled(c, s, t);
    RefreshKeeps(c, s, w);
    var r := Refresh(s, w);
    NoneSent(c, s.trace, t, s.jobs[t]);
    if r.ok {
      hide Core, SendOrFail, Remove, LoadContent, Ready, Refresh, Sendable;
      var u, job := r.state, s.jobs[t];
      WaitingHandled(c, u, t);
      RemoveKeeps(c, u, t, {t});
      var d := c.digest(job.bytes);
      if d.Some? && (job.expected == ZERO || job.expected == d.value) && d.value in u.approved {
        LoadAndAnnounce(c, u, t, d.value, w);
      }
    }
  }

  lemma NoneSent(c: Config, trace: seq<Event>, t: nat, j: Job)
    requires Ready(c, trace, t, j, true) && Waits(j)
    ensures j.sent == 0
  {}

  lemma WorkKeeps(c: Config, s: State, w: World)
    requires Inv(c, s)
    ensures Bounded(s) && Inv(c, Work(c, s, w))
  {
    InvBounded(c, s);
    hide Core, CheckJobParts, ImportJob;
    if !Idle(s) {
      var t := FirstWaiting(s);
      if s.jobs[t].phase == CheckParts {
        CheckKeeps(c, s, t, w);
      } else {
        ImportKeeps(c, s, t, w);
      }
    }
  }

  lemma UpdateKeeps(c: Config, s: State, w: World)
    requires Inv(c, s)
    ensures Bounded(s) && Inv(c, UpdateAll(c, s, w))
  {
    InvBounded(c, s);
    hide Core, Drop, Work;
    DropKeeps(c, s, Late(s, w.clock), {});
    WorkKeeps(c, Expire(s, w.clock), w);
  }

  /** Every frame, every update and every fence keeps all of it. */
  lemma StepKeeps(c: Config, s: State, input: Input, w: World)
    requires Inv(c, s)
    ensures Bounded(s) && Inv(c, Step(c, s, input, w))
  {
    InvBounded(c, s);
    FenceKeeps(c, s);
    hide Core, ReceiveFrame, UpdateAll;
    match input
    case Receive(frame) => FrameKeeps(c, s, frame, w);
    case Update => UpdateKeeps(c, s, w);
    case Fence =>
  }
}
