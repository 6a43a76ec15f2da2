/** How the observation of an imported content gets into the coordinator's upload slot. */
module ContentOpening {
  import opened Basics
  import opened ContentSpec
  import opened Words
  import opened ContentSafety
  import opened ContentRuns
  import opened ContentCoordinator
  import opened ContentImports

  lemma OpensSlot(c: Config, q: Peer, x: State, u: State, t: nat, k: Job, hash: Digest)
    requires AnnouncedFrom(c, x, u, t, k, hash) && t != 0 && SlotAfter(c, q, x.trace).transaction == 0
    requires k.phase == ObserveBegin && k.sent == 0 && 292 <= |k.observation| <= 65536
    requires c.digest(k.observation) == Some(hash) && hash != ZERO && Cooperates(q, k.observation)
    ensures UploadingTo(c, q, u, t, u.sequence, hash)
  {
    var f := Blank(ObservationBegin, t).(request := x.sequence + 1, total := |k.observation|, identity := hash);
    SlotStep(c, q, x.trace, t, f);
    TrackStep(c, q, x.trace, Sent(t, f), t);
    assert q.gate(f.request) == Pass && !q.dropped(f.request);
    assert Serve(c, q, SlotAfter(c, q, x.trace), f) == Taken(Upload(t, |k.observation|, hash, []), true);
    assert k.observation[..0] == [];
    hide SlotAfter, Track, Serve, Cooperates;
  }

  lemma LoadKeepsSlot(c: Config, q: Peer, s: State, t: nat, hash: Digest, bytes: seq<byte>, w: World)
    ensures SlotAfter(c, q, LoadContent(s, t, hash, bytes, w).state.trace) == SlotAfter(c, q, s.trace)
  {
    var l := LoadContent(s, t, hash, bytes, w).state;
    if l.trace != s.trace {
      assert l.trace[..|l.trace| - 1] == s.trace && l.trace[|l.trace| - 1].Loaded?;
    }
  }

  /**
    An import that goes on while the coordinator's slot is free puts its observation there: it is at the beginning of an
    upload that can be completed.
  */
  lemma ImportOpens(c: Config, q: Peer, s: State, t: nat, w: World, hash: Digest)
    requires Inv(c, s) && t in s.jobs && s.jobs[t].phase == Import && s.jobs[t].sent == 0
    requires t in ImportJob(c, s, t, w).jobs && SlotAfter(c, q, s.trace).transaction == 0
    requires w.encoded.Some? && c.digest(w.encoded.value) == Some(hash) && hash != ZERO
    requires Cooperates(q, w.encoded.value)
    ensures var u := ImportJob(c, s, t, w); UploadingTo(c, q, u, t, u.sequence, hash)
  {
    ImportOutcome(c, s, t, w);
    RefreshOutcome(c, s, w, t);
    JobNumber(c, s, t);
    var r, d := Refresh(s, w).state, c.digest(s.jobs[t].bytes).value;
    RefreshTrace(s, w);
    LoadOutcome(r, t, d, s.jobs[t].bytes, w);
    var l := LoadContent(r, t, d, s.jobs[t].bytes, w).state;
    var k := s.jobs[t].(observation := w.encoded.value, bytes := [], phase := ObserveBegin);
    var x := PutJob(l, t, k);
    hide Inv, Core, Ready, SlotAfter, LoadContent, SendOrFail, UploadingTo, Cooperates, Refresh, AnnouncedFrom;
    LoadedThenAnnounced(c, r, t, d, w);
    LoadKeepsSlot(c, q, r, t, d, s.jobs[t].bytes, w);
    assert ImportJob(c, s, t, w) == SendOrFail(c, x, t, w.accepts);
    OpensSlot(c, q, x, SendOrFail(c, x, t, w.accepts), t, k, hash);
  }

  lemma RefreshTrace(s: State, w: World)
    ensures Refresh(s, w).state.trace == s.trace
  {}
}
