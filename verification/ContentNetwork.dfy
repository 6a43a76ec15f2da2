/** The content exchange of one process, updating its tables in place (src/bridge/native_content_network.cpp). */
module ContentNetwork {
  import opened Basics
  import opened ContentSpec
  import opened Words
  import opened ContentSafety

  class NativeContentNetwork {
    const config: Config
    var jobs: map<nat, Job>
    var pending: map<nat, Pending>
    var approved: set<Digest>
    var imported: map<Digest, Key>
    var sequence: nat
    ghost var trace: seq<Event>

    ghost function Contents(): State
      reads this
    {
      State(jobs, pending, approved, imported, sequence, trace)
    }

    constructor (config: Config, approved: Approvals)
      ensures this.config == config && Contents() == State(map[], map[], approved, map[], 0, [])
    {
      this.config := config;
      this.approved := approved;
      jobs, pending, imported, sequence, trace := map[], map[], map[], 0, [];
    }

    /** Forgets a transaction and, one by one, the requests it still has out. */
    method Remove(t: nat)
      modifies this
      ensures Contents() == ContentSpec.Remove(old(Contents()), t)
    {
      jobs := jobs - {t};
      ghost var s, before := Contents(), pending;
      var rest := pending.Keys;
      while rest != {}
        invariant rest <= pending.Keys && pending.Keys <= before.Keys
        invariant forall r :: r in pending ==> pending[r] == before[r] && (r in rest || before[r].transaction != t)
        invariant forall r :: r in before && before[r].transaction != t ==> r in pending
        invariant Contents() == s.(pending := pending)
        decreases |rest|
      {
        var r :| r in rest;
        rest := rest - {r};
        if pending[r].transaction == t {
          pending := pending - {r};
        }
      }
      assert pending == Without(before, {t});
    }

    method Request(frame: Frame, accepts: bool) returns (ok: bool)
      modifies this
      ensures ContentSpec.Request(old(Contents()), frame, accepts) == Outcome(Contents(), ok)
    {
      if sequence >= MAX_SEQUENCE || |pending| >= 2 {
        return false;
      }
      sequence := sequence + 1;
      if !accepts {
        return false;
      }
      pending := pending[sequence := Pending(frame.transaction, frame.op, frame.offset)];
      trace := trace + [Sent(frame.transaction, frame.(request := sequence))];
      return true;
    }

    method SendNext(t: nat, accepts: bool) returns (ok: bool)
      requires Sendable(Contents(), t)
      modifies this
      ensures ContentSpec.SendNext(config, old(Contents()), t, accepts) == Outcome(Contents(), ok)
    {
      var frame := NextFrame(config, t, jobs[t]);
      if frame.None? {
        return false;
      }
      jobs := jobs[t := Advanced(jobs[t])];
      ok := Request(frame.value, accepts);
    }

    method SendOrFail(t: nat, accepts: bool)
      requires Sendable(Contents(), t)
      modifies this
      ensures Contents() == ContentSpec.SendOrFail(config, old(Contents()), t, accepts)
    {
      var ok := SendNext(t, accepts);
      if !ok {
        Remove(t);
      }
    }

    method ReceiveDependencies(t: nat, f: Frame, p: Pending) returns (next: bool)
      requires t in jobs
      modifies this
      ensures ContentSpec.ReceiveDependencies(config, old(Contents()), t, f, p) == Outcome(Contents(), next)
    {
      hide ContentSpec.Remove, Names;
      if !DependencyChunkOk(jobs[t], f, p) {
        Remove(t);
        return false;
      }
      var job := jobs[t].(hashTotal := f.total, hash := f.identity, hashBytes := jobs[t].hashBytes + f.data);
      jobs := jobs[t := job];
      if |job.hashBytes| != job.hashTotal {
        return true;
      }
      var manifest := config.decode(job.hashBytes);
      if manifest.None? || !Verified(config, job.(dependencies := manifest.value)) {
        ghost var before := Contents();
        Remove(t);
        SameRemoval(before, old(Contents()), t);
        return false;
      }
      job := job.(dependencies := manifest.value, phase := CheckParts);
      jobs := jobs[t := job];
      assert Contents() == PutJob(old(Contents()), t, job);
      return false;
    }

    method ReceiveFetch(t: nat, f: Frame, p: Pending) returns (next: bool)
      requires t in jobs
      modifies this
      ensures ContentSpec.ReceiveFetch(old(Contents()), t, f, p) == Outcome(Contents(), next)
    {
      if !FetchChunkOk(jobs[t], f, p) {
        Remove(t);
        return false;
      }
      var job := jobs[t].(total := f.total, bytes := jobs[t].bytes + f.data);
      next := |job.bytes| != job.total;
      if !next {
        job := job.(phase := Import);
      }
      jobs := jobs[t := job];
    }

    method ApplyResponse(t: nat, f: Frame, p: Pending) returns (next: bool)
      requires t in jobs
      modifies this
      ensures ContentSpec.ApplyResponse(config, old(Contents()), t, f, p) == Outcome(Contents(), next)
    {
      hide ContentSpec.ReceiveFetch, ContentSpec.ReceiveDependencies;
      match f.op
      case Dependencies => next := ReceiveDependencies(t, f, p);
      case Fetch => next := ReceiveFetch(t, f, p);
      case ObservationBegin =>
        jobs := jobs[t := jobs[t].(phase := ObserveChunk)];
        next := true;
      case ObservationChunk =>
        var job := jobs[t];
        jobs := jobs[t := job.(phase := if job.sent < |job.observation| then ObserveChunk else ObserveEnd)];
        next := true;
      case _ =>
        Remove(t);
        next := false;
    }

    method ReceiveResponse(f: Frame, w: World)
      requires Bounded(Contents())
      modifies this
      ensures Contents() == ContentSpec.ReceiveResponse(config, old(Contents()), f, w)
    {
      hide ContentSpec.ApplyResponse, ContentSpec.Remove, ContentSpec.SendOrFail;
      if f.request !in pending {
        return;
      }
      var p := pending[f.request];
      pending := pending - {f.request};
      var t := p.transaction;
      if t !in jobs {
        return;
      }
      if f.transaction != t || f.op != p.op || f.failed || f.op == DependencyFailure {
        Remove(t);
        return;
      }
      ApplyBounded(config, Contents(), t, f, p);
      var next := ApplyResponse(t, f, p);
      if next {
        SendOrFail(t, w.accepts);
      }
    }

    method Fence()
      modifies this
      ensures Contents() == Fenced(old(Contents()))
    {
      jobs, pending := map[], map[];
    }

    method RefreshApprovals(w: World) returns (ok: bool)
      modifies this
      ensures Refresh(old(Contents()), w) == Outcome(Contents(), ok)
    {
      if w.approvals.Some? {
        approved := w.approvals.value;
        return true;
      }
      approved := {};
      Fence();
      return false;
    }

    method BeginJob(f: Frame, w: World)
      modifies this
      ensures Contents() == ContentSpec.BeginJob(config, old(Contents()), f, w)
    {
      hide ContentSpec.SendOrFail, Refresh;
      if f.op != (if config.player then LoadEvent else ValidateEvent) || f.transaction == 0 {
        return;
      }
      var ok := RefreshApprovals(w);
      if !ok || f.transaction in jobs || |jobs| >= 2 {
        return;
      }
      if config.player && (f.identity !in approved || f.total < MIN_PNG || f.total > MAX_PNG || |f.data| != 32) {
        return;
      }
      var job := NewJob(config, f, w.clock(f.transaction));
      jobs := jobs[f.transaction := job];
      trace := trace + [Begun(f.transaction, job.expected, job.properties)];
      SendOrFail(f.transaction, w.accepts);
    }

    method Receive(frame: Option<Frame>, w: World)
      requires Bounded(Contents())
      modifies this
      ensures Contents() == ReceiveFrame(config, old(Contents()), frame, w)
    {
      hide ContentSpec.ReceiveResponse, ContentSpec.BeginJob, ContentSpec.Remove, Bounded;
      if approved == {} || frame.None? {
        return;
      }
      var f := frame.value;
      if f.request != 0 {
        ReceiveResponse(f, w);
      } else if f.op == CancelledEvent || f.op == PublishedEvent {
        Remove(f.transaction);
      } else {
        BeginJob(f, w);
      }
    }

    method ExpireJobs(clock: nat -> nat)
      modifies this
      ensures Contents() == Expire(old(Contents()), clock)
    {
      var expired := set t | t in jobs && clock(t) >= jobs[t].deadline;
      assert expired == Late(Contents(), clock);
      ghost var gone := {};
      DropNothing(Contents());
      while expired != {}
        invariant gone + expired == Late(old(Contents()), clock)
        invariant Contents() == Drop(old(Contents()), gone)
        decreases |expired|
      {
        var t :| t in expired;
        Remove(t);
        DropTwice(old(Contents()), gone, {t});
        expired, gone := expired - {t}, gone + {t};
      }
      assert gone == Late(old(Contents()), clock);
    }

    method CheckJobParts(t: nat, w: World)
      requires Sendable(Contents(), t)
      modifies this
      ensures Contents() == ContentSpec.CheckJobParts(config, old(Contents()), t, w)
    {
      hide ContentSpec.SendOrFail, ContentSpec.Remove;
      var job := jobs[t].(missing := w.missing);
      if !w.held {
        if w.missing.group == 0 || w.missing.instance == 0 {
          Remove(t);
          return;
        }
        jobs := jobs[t := job.(phase := ReportDependency)];
      } else {
        jobs := jobs[t := job.(phase := Fetching)];
        trace := trace + [PartsReady(t, PartsOf(job))];
      }
      SendOrFail(t, w.accepts);
    }

    /** An import happens once for each digest: what was imported before is inspected. */
    method LoadContent(t: nat, hash: Digest, bytes: seq<byte>, w: World) returns (loaded: bool)
      modifies this
      ensures ContentSpec.LoadContent(old(Contents()), t, hash, bytes, w) == Outcome(Contents(), loaded)
    {
      if hash in imported {
        trace := trace + [Loaded(t, hash, bytes, approved, Inspects(imported[hash], w.inspected))];
        return w.inspected;
      }
      if !w.staged {
        return false;
      }
      trace := trace + [Loaded(t, hash, bytes, approved, Imports(w.loaded))];
      loaded := w.loaded.Some?;
      if loaded {
        imported := imported[hash := w.loaded.value];
      }
    }

    method ImportJob(t: nat, w: World)
      requires t in jobs && jobs[t].sent == 0
      modifies this
      ensures Contents() == ContentSpec.ImportJob(config, old(Contents()), t, w)
    {
      hide ContentSpec.SendOrFail, ContentSpec.Remove, ContentSpec.LoadContent;
      var job := jobs[t];
      var ok := RefreshApprovals(w);
      if !ok {
        return;
      }
      var hash := config.digest(job.bytes);
      if hash.None? || (job.expected != ZERO && job.expected != hash.value) || hash.value !in approved {
        Remove(t);
        return;
      }
      LoadedTables(Contents(), t, hash.value, job.bytes, w);
      ok := LoadContent(t, hash.value, job.bytes, w);
      if !ok || w.encoded.None? {
        Remove(t);
        return;
      }
      jobs := jobs[t := job.(observation := w.encoded.value, bytes := [], phase := ObserveBegin)];
      SendOrFail(t, w.accepts);
    }

    /** The first job, by transaction, that waits for the original takes one step. */
    method Work(w: World)
      requires Bounded(Contents())
      modifies this
      ensures Contents() == ContentSpec.Work(config, old(Contents()), w)
    {
      hide ContentSpec.CheckJobParts, ContentSpec.ImportJob;
      var waiting := set t | t in jobs && Waits(jobs[t]);
      assert forall t :: t in jobs && Waits(jobs[t]) ==> t in waiting;
      if waiting == {} {
        return;
      }
      ghost var least := LeastNumber(waiting);
      var t :| t in waiting && forall u :: u in waiting ==> t <= u;
      assert IsFirst(Contents(), t);
      if jobs[t].phase == CheckParts {
        CheckJobParts(t, w);
      } else {
        ImportJob(t, w);
      }
    }

    method Update(w: World)
      requires Bounded(Contents())
      modifies this
      ensures Contents() == UpdateAll(config, old(Contents()), w)
    {
      hide Drop, ContentSpec.Work, Bounded;
      if approved == {} {
        return;
      }
      StillBounded(Contents(), Late(Contents(), w.clock));
      ExpireJobs(w.clock);
      if w.quiet {
        Work(w);
      }
    }
  }

  lemma SameRemoval(s: State, u: State, t: nat)
    requires s == u.(jobs := s.jobs) && s.jobs - {t} == u.jobs - {t}
    ensures ContentSpec.Remove(s, t) == ContentSpec.Remove(u, t)
  {}

  lemma DropNothing(s: State)
    ensures Drop(s, {}) == s
  {
    assert s.jobs - {} == s.jobs;
    assert Without(s.pending, {}) == s.pending;
  }

  lemma DropTwice(s: State, a: set<nat>, b: set<nat>)
    ensures Drop(Drop(s, a), b) == Drop(s, a + b)
  {
    assert s.jobs - a - b == s.jobs - (a + b);
    assert Without(Without(s.pending, a), b) == Without(s.pending, a + b);
  }

  lemma LoadedTables(s: State, t: nat, hash: Digest, bytes: seq<byte>, w: World)
    ensures ContentSpec.LoadContent(s, t, hash, bytes, w).state.jobs == s.jobs
  {}
}
