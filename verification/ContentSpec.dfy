/**
  The content exchange of src/bridge/native_content_network.cpp as a transition function: two concurrent chunked
  transactions, with correlated requests, phases, deadlines and approvals. The trace records what leaves the process
  and what it hands to the original; nothing is decided by it.
*/
module ContentSpec {
  import opened Basics
  import opened Words

  type Digest = seq<byte>

  const ZERO: Digest := Zeros(32)

  const CHUNK: nat := 420
  const MIN_DEPENDENCY: nat := 316
  const MAX_DEPENDENCY: nat := 6448
  const MIN_PNG: nat := 57
  const MAX_PNG: nat := 4194304
  const LIFETIME: nat := 120000
  const MAX_SEQUENCE: nat := 0xffff_ffff_ffff_ffff

  /** What encoding an observation gives. */
  type Encoded = s: seq<byte> | 292 <= |s| <= 65536 witness Zeros(292)

  /** A list of approvals that was read: not empty, and without the zero digest. */
  type Approvals = s: set<Digest> | s != {} && ZERO !in s witness {Zeros(1)}

  datatype Op =
    | Fetch | ObservationBegin | ObservationChunk | ObservationEnd | Dependencies | DependencyFailure
    | ValidateEvent | LoadEvent | PublishedEvent | CancelledEvent | OtherOp

  datatype Phase =
    | NeedDependencies | CheckParts | ReportDependency | Fetching | Import | ObserveBegin | ObserveChunk | ObserveEnd

  datatype Key = Key(group: nat, instance: nat, kind: nat)

  const NO_KEY := Key(0, 0, 0)

  datatype Manifest = Manifest(
    png: Digest, properties: Digest, profile: nat, world: nat, pngBytes: nat, parts: seq<Key>)

  datatype Frame = Frame(
    op: Op, failed: bool, request: nat, transaction: nat, offset: nat, total: nat, identity: Digest, missing: Key,
    data: seq<byte>)

  datatype Job = Job(
    deadline: nat, phase: Phase, total: nat, expected: Digest, properties: Digest,
    hash: Digest, hashTotal: nat, hashBytes: seq<byte>, dependencies: Manifest,
    missing: Key, bytes: seq<byte>, observation: seq<byte>, sent: nat)

  datatype Pending = Pending(transaction: nat, op: Op, offset: nat)

  /** A manifest whose parts are all there, with the digest and the bytes it was read from. */
  datatype Parts = Parts(manifest: Manifest, hash: Digest, bytes: seq<byte>)

  /** The original inspects content under the key of an earlier import, or imports staged content under a new key. */
  datatype Reading = Inspects(key: Key, ok: bool) | Imports(got: Option<Key>)

  datatype Event =
    | Begun(transaction: nat, expected: Digest, properties: Digest)
    | Sent(transaction: nat, frame: Frame)
    | PartsReady(transaction: nat, parts: Parts)
    | Loaded(transaction: nat, hash: Digest, bytes: seq<byte>, approved: set<Digest>, reading: Reading)

  /** The process: its role, its installed profile and world, the digest and the reading of a manifest. */
  datatype Config = Config(
    player: bool, profile: nat, world: nat, digest: seq<byte> -> Option<Digest>,
    decode: seq<byte> -> Option<Manifest>)

  datatype State = State(
    jobs: map<nat, Job>, pending: map<nat, Pending>, approved: set<Digest>, imported: map<Digest, Key>,
    sequence: nat, trace: seq<Event>)

  datatype Outcome = Outcome(state: State, ok: bool)

  /** What the outside answers during one call; the clock is read anew for each transaction. */
  datatype World = World(
    clock: nat -> nat, accepts: bool, approvals: Option<Approvals>, quiet: bool, held: bool, missing: Key,
    inspected: bool, staged: bool, loaded: Option<Key>, encoded: Option<Encoded>)

  datatype Input = Receive(frame: Option<Frame>) | Update | Fence

  function Blank(op: Op, t: nat): Frame {
    Frame(op, false, 0, t, 0, 0, ZERO, NO_KEY, [])
  }

  function Min(a: nat, b: nat): nat {
    if a < b then a else b
  }

  function Note(s: State, e: Event): State {
    s.(trace := s.trace + [e])
  }

  function PutJob(s: State, t: nat, job: Job): State {
    s.(jobs := s.jobs[t := job])
  }

  /** The requests that do not belong to one of these transactions. */
  function Without(pending: map<nat, Pending>, ts: set<nat>): map<nat, Pending> {
    map r | r in pending && pending[r].transaction !in ts :: pending[r]
  }

  function Drop(s: State, ts: set<nat>): State {
    s.(jobs := s.jobs - ts, pending := Without(s.pending, ts))
  }

  function Remove(s: State, t: nat): State {
    Drop(s, {t})
  }

  // ---- Sending ----

  function Request(s: State, frame: Frame, accepts: bool): Outcome {
    if s.sequence >= MAX_SEQUENCE || |s.pending| >= 2 then Outcome(s, false)
    else
      var r := s.sequence + 1;
      var f := frame.(request := r);
      if !accepts then Outcome(s.(sequence := r), false)
      else
        var p := Pending(frame.transaction, frame.op, frame.offset);
        Outcome(Note(s.(sequence := r, pending := s.pending[r := p]), Sent(frame.transaction, f)), true)
  }

  function ChunkEnd(job: Job): nat {
    Min(job.sent + CHUNK, |job.observation|)
  }

  function NextFrame(c: Config, t: nat, job: Job): Option<Frame>
    requires job.sent <= |job.observation|
  {
    match job.phase
    case NeedDependencies => Some(Blank(Dependencies, t).(offset := |job.hashBytes|))
    case ReportDependency => Some(Blank(DependencyFailure, t).(failed := true, missing := job.missing))
    case Fetching => Some(Blank(Fetch, t).(offset := |job.bytes|))
    case ObserveBegin =>
      (match c.digest(job.observation)
       case None => None
       case Some(hash) => Some(Blank(ObservationBegin, t).(total := |job.observation|, identity := hash)))
    case ObserveChunk =>
      Some(Blank(ObservationChunk, t).(offset := job.sent, data := job.observation[job.sent..ChunkEnd(job)]))
    case ObserveEnd => Some(Blank(ObservationEnd, t))
    case _ => None
  }

  function Advanced(job: Job): Job {
    if job.phase == ObserveChunk then job.(sent := ChunkEnd(job)) else job
  }

  predicate Sendable(s: State, t: nat) {
    t in s.jobs && s.jobs[t].sent <= |s.jobs[t].observation|
  }

  function SendNext(c: Config, s: State, t: nat, accepts: bool): Outcome
    requires Sendable(s, t)
  {
    match NextFrame(c, t, s.jobs[t])
    case None => Outcome(s, false)
    case Some(frame) => Request(PutJob(s, t, Advanced(s.jobs[t])), frame, accepts)
  }

  function SendOrFail(c: Config, s: State, t: nat, accepts: bool): State
    requires Sendable(s, t)
  {
    var o := SendNext(c, s, t, accepts);
    if o.ok then o.state else Remove(o.state, t)
  }

  // ---- Receiving ----

  /** A manifest names this transaction's PNG, its properties, and the installed profile and world. */
  predicate Names(c: Config, job: Job, m: Manifest) {
    && m.png == job.expected && m.properties == job.properties && m.pngBytes == job.total
    && m.profile == c.profile && m.world == c.world
  }

  predicate Verified(c: Config, job: Job) {
    && c.digest(job.hashBytes) == Some(job.hash) && c.decode(job.hashBytes) == Some(job.dependencies)
    && Names(c, job, job.dependencies)
  }

  predicate DependencyChunkOk(job: Job, f: Frame, p: Pending) {
    && job.phase == NeedDependencies && MIN_DEPENDENCY <= f.total <= MAX_DEPENDENCY
    && (job.hashTotal == 0 || job.hashTotal == f.total) && f.offset == p.offset && f.offset == |job.hashBytes|
    && f.offset <= f.total && f.data != [] && |f.data| == Min(CHUNK, f.total - f.offset)
    && f.identity != ZERO && (job.hash == ZERO || job.hash == f.identity)
  }

  function ReceiveDependencies(c: Config, s: State, t: nat, f: Frame, p: Pending): Outcome
    requires t in s.jobs
  {
    var job := s.jobs[t];
    if !DependencyChunkOk(job, f, p) then Outcome(Remove(s, t), false)
    else
      var more := job.(hashTotal := f.total, hash := f.identity, hashBytes := job.hashBytes + f.data);
      if |more.hashBytes| != more.hashTotal then Outcome(PutJob(s, t, more), true)
      else match c.decode(more.hashBytes)
           case None => Outcome(Remove(s, t), false)
           case Some(m) =>
             var full := more.(dependencies := m);
             if !Verified(c, full) then Outcome(Remove(s, t), false)
             else Outcome(PutJob(s, t, full.(phase := CheckParts)), false)
  }

  predicate FetchChunkOk(job: Job, f: Frame, p: Pending) {
    && job.phase == Fetching && MIN_PNG <= f.total <= MAX_PNG
    && (job.total == 0 || job.total == f.total) && f.offset == p.offset && f.offset == |job.bytes|
    && f.offset <= f.total && f.data != [] && |f.data| == Min(CHUNK, f.total - f.offset)
  }

  function ReceiveFetch(s: State, t: nat, f: Frame, p: Pending): Outcome
    requires t in s.jobs
  {
    var job := s.jobs[t];
    if !FetchChunkOk(job, f, p) then Outcome(Remove(s, t), false)
    else
      var more := job.(total := f.total, bytes := job.bytes + f.data);
      if |more.bytes| == more.total then Outcome(PutJob(s, t, more.(phase := Import)), false)
      else Outcome(PutJob(s, t, more), true)
  }

  function ApplyResponse(c: Config, s: State, t: nat, f: Frame, p: Pending): Outcome
    requires t in s.jobs
  {
    var job := s.jobs[t];
    match f.op
    case Dependencies => ReceiveDependencies(c, s, t, f, p)
    case Fetch => ReceiveFetch(s, t, f, p)
    case ObservationBegin => Outcome(PutJob(s, t, job.(phase := ObserveChunk)), true)
    case ObservationChunk =>
      Outcome(PutJob(s, t, job.(phase := if job.sent < |job.observation| then ObserveChunk else ObserveEnd)), true)
    case _ => Outcome(Remove(s, t), false)
  }

  predicate Observing(job: Job) {
    job.phase == ObserveBegin || job.phase == ObserveChunk || job.phase == ObserveEnd
  }

  /** Every job's count of sent bytes is within its observation, and zero before there is one. */
  ghost predicate Bounded(s: State) {
    forall t :: t in s.jobs ==>
      s.jobs[t].sent <= |s.jobs[t].observation| && (Observing(s.jobs[t]) || s.jobs[t].sent == 0)
  }

  function ReceiveResponse(c: Config, s: State, f: Frame, w: World): State
    requires Bounded(s)
  {
    if f.request !in s.pending then s
    else
      var p := s.pending[f.request];
      var t := p.transaction;
      var u := s.(pending := s.pending - {f.request});
      if t !in u.jobs then u
      else if f.transaction != t || f.op != p.op || f.failed || f.op == DependencyFailure then Remove(u, t)
      else
        var o := ApplyResponse(c, u, t, f, p);
        if !o.ok then o.state else SendOrFail(c, o.state, t, w.accepts)
  }

  function Fenced(s: State): State {
    s.(jobs := map[], pending := map[])
  }

  /** The approval list is read again; without it everything stops. */
  function Refresh(s: State, w: World): Outcome {
    match w.approvals
    case None => Outcome(Fenced(s).(approved := {}), false)
    case Some(list) => Outcome(s.(approved := list), true)
  }

  function NewJob(c: Config, f: Frame, now: nat): Job {
    Job(now + LIFETIME, if c.player then NeedDependencies else Fetching, f.total, f.identity,
        if c.player then f.data else ZERO, ZERO, 0, [], Manifest(ZERO, ZERO, 0, 0, 0, []), NO_KEY, [], [], 0)
  }

  predicate Refused(c: Config, s: State, f: Frame) {
    || f.transaction in s.jobs || |s.jobs| >= 2
    || (c.player && (f.identity !in s.approved || f.total < MIN_PNG || f.total > MAX_PNG || |f.data| != 32))
  }

  function BeginJob(c: Config, s: State, f: Frame, w: World): State {
    if f.op != (if c.player then LoadEvent else ValidateEvent) || f.transaction == 0 then s
    else
      var o := Refresh(s, w);
      if !o.ok || Refused(c, o.state, f) then o.state
      else
        var job := NewJob(c, f, w.clock(f.transaction));
        SendOrFail(c, Note(PutJob(o.state, f.transaction, job), Begun(f.transaction, job.expected, job.properties)),
                   f.transaction, w.accepts)
  }

  function ReceiveFrame(c: Config, s: State, frame: Option<Frame>, w: World): State
    requires Bounded(s)
  {
    if s.approved == {} || frame.None? then s
    else
      var f := frame.value;
      if f.request != 0 then ReceiveResponse(c, s, f, w)
      else if f.op == CancelledEvent || f.op == PublishedEvent then Remove(s, f.transaction)
      else BeginJob(c, s, f, w)
  }

  // ---- Updates ----

  function Late(s: State, clock: nat -> nat): set<nat> {
    set t | t in s.jobs && clock(t) >= s.jobs[t].deadline
  }

  function Expire(s: State, clock: nat -> nat): State {
    Drop(s, Late(s, clock))
  }

  function PartsOf(job: Job): Parts {
    Parts(job.dependencies, job.hash, job.hashBytes)
  }

  function CheckJobParts(c: Config, s: State, t: nat, w: World): State
    requires Sendable(s, t)
  {
    var job := s.jobs[t];
    if w.held then
      SendOrFail(c, Note(PutJob(s, t, job.(phase := Fetching, missing := w.missing)), PartsReady(t, PartsOf(job))),
                 t, w.accepts)
    else if w.missing.group == 0 || w.missing.instance == 0 then Remove(s, t)
    else SendOrFail(c, PutJob(s, t, job.(phase := ReportDependency, missing := w.missing)), t, w.accepts)
  }

  /** The original reads approved content: inspected again when imported before, staged and imported otherwise. */
  function LoadContent(s: State, t: nat, hash: Digest, bytes: seq<byte>, w: World): Outcome {
    if hash in s.imported then
      Outcome(Note(s, Loaded(t, hash, bytes, s.approved, Inspects(s.imported[hash], w.inspected))), w.inspected)
    else if !w.staged then Outcome(s, false)
    else
      var seen := Note(s, Loaded(t, hash, bytes, s.approved, Imports(w.loaded)));
      match w.loaded
      case None => Outcome(seen, false)
      case Some(key) => Outcome(seen.(imported := seen.imported[hash := key]), true)
  }

  function ImportJob(c: Config, s: State, t: nat, w: World): State
    requires t in s.jobs && s.jobs[t].sent == 0
  {
    var r := Refresh(s, w);
    if !r.ok then r.state
    else
      var u, job := r.state, s.jobs[t];
      match c.digest(job.bytes)
      case None => Remove(u, t)
      case Some(hash) =>
        if (job.expected != ZERO && job.expected != hash) || hash !in u.approved then Remove(u, t)
        else
          var o := LoadContent(u, t, hash, job.bytes, w);
          if !o.ok || w.encoded.None? then Remove(o.state, t)
          else
            SendOrFail(c, PutJob(o.state, t, job.(observation := w.encoded.value, bytes := [],
                                                  phase := ObserveBegin)), t, w.accepts)
  }

  predicate Waits(job: Job) {
    job.phase == CheckParts || job.phase == Import
  }

  predicate IsFirst(s: State, t: nat) {
    t in s.jobs && Waits(s.jobs[t]) && forall u :: u in s.jobs && Waits(s.jobs[u]) ==> t <= u
  }

  ghost predicate Idle(s: State) {
    forall t :: t in s.jobs ==> !Waits(s.jobs[t])
  }

  lemma FirstExists(s: State)
    requires !Idle(s)
    ensures exists t :: IsFirst(s, t)
  {
    var among := set t | t in s.jobs && Waits(s.jobs[t]);
    var u :| u in s.jobs && Waits(s.jobs[u]);
    assert u in among;
    var t := LeastNumber(among);
    assert forall v :: v in s.jobs && Waits(s.jobs[v]) ==> v in among;
    assert IsFirst(s, t);
  }

  ghost function FirstWaiting(s: State): (t: nat)
    requires !Idle(s)
    ensures IsFirst(s, t)
  {
    FirstExists(s);
    var t :| IsFirst(s, t);
    t
  }

  /** The first job that waits for the original takes one step. */
  ghost function Work(c: Config, s: State, w: World): State
    requires Bounded(s)
  {
    if Idle(s) then s
    else
      var t := FirstWaiting(s);
      if s.jobs[t].phase == CheckParts then CheckJobParts(c, s, t, w) else ImportJob(c, s, t, w)
  }

  ghost function UpdateAll(c: Config, s: State, w: World): State
    requires Bounded(s)
  {
    if s.approved == {} then s
    else
      var u := Expire(s, w.clock);
      if !w.quiet then u else Work(c, u, w)
  }

  ghost function Step(c: Config, s: State, input: Input, w: World): State
    requires Bounded(s)
  {
    match input
    case Receive(frame) => ReceiveFrame(c, s, frame, w)
    case Update => UpdateAll(c, s, w)
    case Fence => Fenced(s)
  }
}
