/**
 The world of Authority with impostors: anyone sends the Verifier anything under the PEP's name, and the PEP
 anything as a token.  All that is asked of signatures is that whoever does not hold the key signs nothing new;
 the text of a signature is not signed, and anyone may write it differently.
 */
module OpenNetwork {
  import opened Wrappers
  import opened Protocol
  import opened Text
  import opened Attest
  import opened Tokens
  import opened History
  import opened Policy
  import opened Verifier
  import opened VerifierRuns
  import opened Authority
  import opened SealedRuns
  import opened Completeness

  // ---------- what may be sent ----------

  /** Equal in all that is signed. */
  predicate SameBody(a: Checkpoint, b: Checkpoint) {
    a.(signature := "") == b.(signature := "")
  }

  ghost predicate Signed(sent: set<Evidence>, c: Checkpoint) {
    exists ev :: ev in sent && SameBody(ev.checkpoint, c)
  }

  /** Sent with the very same text of the signature. */
  ghost predicate SentAs(sent: set<Evidence>, c: Checkpoint) {
    exists ev :: ev in sent && ev.checkpoint == c
  }

  /** The request is not for this PEP, or its checkpoint does not verify, or the PEP signed and sent it. */
  ghost predicate Known(c: Setup, sent: set<Evidence>, req: CapacityRequest) {
    req.pepID == c.pep.pepID && req.history.Some?
    && VerifyCheckpoint(c.pep.p, req.history.value.checkpoint, req.pepSigningPubKey)
    ==> Signed(sent, req.history.value.checkpoint)
  }

  /** Nobody but the PEP signs under the key enrolled for it. */
  ghost predicate Unforged(c: Setup, sent: set<Evidence>, req: CapacityRequest) {
    Screen(c.ver, req).Success? ==> Known(c, sent, req)
  }

  /** Nobody but the Verifier signs tokens. */
  ghost predicate TokenUnforged(c: Setup, granted: seq<Token>, tok: Token) {
    c.pep.p.verify(c.pep.verifierPubKey, SigningBody(tok), tok.signature) ==> Handed(granted, tok)
  }

  ghost function OpenNetNext(c: Setup, w: World, step: WorldStep): World {
    match step
    case PepMoves(s) =>
      if s.ReceiveStep? && !TokenUnforged(c, w.server.granted, s.tok) then w
      else w.(local := PepNext(c.pep, w.local, s))
    case Send => WorldNext(c, w, Send)
    case VerifierMoves(s) =>
      if s.BeginStep? && !Unforged(c, w.sent, s.req) then w
      else w.(server := ServerNext(c.pep.p, c.ver, w.server, s).0)
  }

  ghost function OpenNetRun(c: Setup, steps: seq<WorldStep>): World {
    if steps == [] then InitialWorld(c)
    else OpenNetNext(c, OpenNetRun(c, steps[..|steps| - 1]), steps[|steps| - 1])
  }

  // ---------- events that differ in an empty metadata map only ----------

  lemma SameEventStep(ctx: PolicyContext, st: PolicyState, a: Event, b: Event)
    requires SameEvent(a, b)
    ensures PolicyStep(ctx, st, a) == PolicyStep(ctx, st, b)
  {
    hide TrimSpace, ToLower, Join, Update, View, Contains, EffectiveProfile;
    assert forall key :: Meta(a, key) == Meta(b, key);
    hide Meta;
  }

  lemma {:induction false} SameEventsReplay(ctx: PolicyContext, st: PolicyState, a: seq<Event>, b: seq<Event>)
    requires SameEvents(a, b)
    ensures Replay(ctx, st, a) == Replay(ctx, st, b)
    decreases |a|
  {
    hide PolicyStep, SameEvent;
    if a != [] {
      var n := |a| - 1;
      assert forall i :: 0 <= i < n ==> SameEvent(a[..n][i], b[..n][i]);
      SameEventsReplay(ctx, st, a[..n], b[..n]);
      if Replay(ctx, st, a[..n]).Success? {
        SameEventStep(ctx, Replay(ctx, st, a[..n]).value, a[n], b[n]);
      }
    }
  }

  /** What is pending continues the chain the Verifier's checkpoint ends. */
  lemma PendingIsChained(p: Primitives, h: HistoryState, ev: Evidence, log: seq<Event>)
    requires ChainInvariant(p, h) && log + ev.events <= h.events
    ensures Chained(p, h.pepID, ev.events, LastHash(log, ""), |log|)
    ensures LastHash(ev.events, LastHash(log, "")) == LastHash(h.events[..|log| + |ev.events|], "")
  {
    hide HashEvent;
    var events := h.events[..|log| + |ev.events|];
    assert events == log + ev.events;
    forall i | 0 <= i < |ev.events| ensures Link(p, h.pepID, ev.events, LastHash(log, ""), |log|, i) {
      assert Link(p, h.pepID, h.events, "", 0, |log| + i);
      assert events[|log| + i] == ev.events[i];
      assert i > 0 ==> events[|log| + i - 1] == ev.events[i - 1];
      assert i == 0 && log != [] ==> events[|log| - 1] == log[|log| - 1];
    }
    if ev.events == [] {
      assert events == log;
    }
  }

  // ---------- an accepted impostor tells what the PEP told ----------

  /** The evidence the PEP sent for the next epoch is what it has pending, and continues the Verifier's chain. */
  lemma SentIsChained(c: Setup, v: World, ev: Evidence)
    requires WorldInvariant(c, v) && Traceable(c.pep, v.local)
    requires var vc := VerifierCheckpoint(c, v.server);
      ev in v.sent && ev.checkpoint.epoch == BaseEpoch(vc) + 1
    ensures var vc := VerifierCheckpoint(c, v.server);
      && Pending(c, v) == Some(ev)
      && Chained(c.pep.p, c.pep.pepID, ev.events, BaseHash(vc), BaseIndex(vc))
      && LastHash(ev.events, BaseHash(vc)) == ev.checkpoint.lastEventHash
      && ev.previousCheckpointHash == ev.checkpoint.previousCheckpointHash
      && ev.checkpoint.lastEventIndex == BaseIndex(vc) + |ev.events|
  {
    hide ServerInvariant, ServerMatches, AcceptedLog, OneEvidencePerEpoch, Chained, AcceptedMatches;
    var vc, log := VerifierCheckpoint(c, v.server), AcceptedLog(c, v.server);
    var st := DiskState(c, v.local.node);
    assert st.pendingCapacity == Some(ev) && Next(c.pep.p, st.history, ev, vc, log);
    LogSummarised(c, v.server);
    PendingIsChained(c.pep.p, st.history, ev, log);
  }

  /** What is accepted under a checkpoint the PEP signed are the events the PEP sent with it. */
  lemma AcceptedWasSent(c: Setup, v: World, pub: string, claimed: Evidence, ev: Evidence)
    requires CollisionFree(c.pep.p) && WorldInvariant(c, v) && Traceable(c.pep, v.local)
    requires ValidEvidence(c.pep.p, claimed, c.pep.pepID, pub, VerifierCheckpoint(c, v.server))
    requires ev in v.sent && SameBody(ev.checkpoint, claimed.checkpoint)
    ensures Pending(c, v) == Some(ev) && SameEvents(claimed.events, ev.events)
    ensures ev.checkpoint.epoch == BaseEpoch(VerifierCheckpoint(c, v.server)) + 1
    ensures ev.checkpoint == claimed.checkpoint ==>
      ValidEvidence(c.pep.p, ev, c.pep.pepID, pub, VerifierCheckpoint(c, v.server))
  {
    hide CollisionFree, WorldInvariant, Traceable, Chained, VerifyCheckpoint, SameEvents;
    var vc := VerifierCheckpoint(c, v.server);
    BodyFields(ev.checkpoint, claimed.checkpoint);
    SentIsChained(c, v, ev);
    LastHashDeterminesEvents(c.pep.p, c.pep.pepID, claimed.events, ev.events, BaseHash(vc), BaseIndex(vc));
    SameForm(c.pep.p, claimed.events, ev.events);
  }

  lemma BodyFields(a: Checkpoint, b: Checkpoint)
    requires SameBody(a, b)
    ensures b == a.(signature := b.signature)
  {
    assert b == b.(signature := "").(signature := b.signature);
  }

  lemma SameForm(p: Primitives, a: seq<Event>, b: seq<Event>)
    requires SameEvents(a, b) && VersionOne(a) && Timed(p, a)
    ensures VersionOne(b) && Timed(p, b)
  {
    forall i | 0 <= i < |b| ensures b[i].version == 1 && HasTime(p, b[i].timestamp) {
      assert SameEvent(a[i], b[i]) && HasTime(p, a[i].timestamp);
      assert Canonical(a[i]).version == Canonical(b[i]).version;
      assert Canonical(a[i]).timestamp == Canonical(b[i]).timestamp;
    }
  }

  // ---------- the Verifier treats them alike ----------

  predicate SameClaim(a: CapacityRequest, b: CapacityRequest) {
    && a.history.Some? && b.history.Some?
    && a.history.value.checkpoint == b.history.value.checkpoint
    && b == a.(history := b.history)
  }

  lemma SameBegin(p: Primitives, cfg: VerifierConfig, st: VerifierState, a: CapacityRequest, b: CapacityRequest)
    requires SameClaim(a, b)
    ensures match Begin(p, cfg, st, a)
      case Answered(r) => Begin(p, cfg, st, b) == Answered(r)
      case Flying(f) => Begin(p, cfg, st, b) == Flying(f.(req := f.req.(history := b.history)))
  {
    hide VerifyCapacityToken, SameStrings, ScopeSubset;
  }

  lemma SameFinish(p: Primitives, cfg: VerifierConfig, st: VerifierState, f: Flight, g: Flight, now: int)
    requires SameClaim(f.req, g.req) && g == f.(req := g.req)
    requires SameEvents(f.req.history.value.events, g.req.history.value.events)
    requires ValidEvidence(p, f.req.history.value, f.req.pepID, f.req.pepSigningPubKey, f.previous)
    requires ValidEvidence(p, g.req.history.value, f.req.pepID, f.req.pepSigningPubKey, f.previous)
    ensures Finish(p, cfg, st, g, now, true) == Finish(p, cfg, st, f, now, true)
  {
    hide ValidEvidence, IsRetry, Replay, AtCheckpoint, SignToken;
    SameEventsReplay(ContextOf(p, cfg, f.req), PolicyState(f.active, map[]), f.req.history.value.events,
                     g.req.history.value.events);
    assert Judge(p, cfg, f, now) == Judge(p, cfg, g, now);
    if Judge(p, cfg, f, now).Success? {
      assert Commit(st, f.req, Judge(p, cfg, f, now).value) == Commit(st, g.req, Judge(p, cfg, f, now).value);
      SameRetry(p, cfg, st, f.req, g.req);
    }
  }

  lemma SameRetry(p: Primitives, cfg: VerifierConfig, st: VerifierState, a: CapacityRequest, b: CapacityRequest)
    requires SameClaim(a, b)
    ensures forall c, tok :: IsRetry(p, cfg, a, c, tok) <==> IsRetry(p, cfg, b, c, tok)
  {
    hide VerifyCapacityToken, SameStrings;
  }

  // ---------- with and without impostors ----------

  function Deltas(c: Setup, s: Server): seq<Evidence> {
    AcceptedDeltas(ByPep(s.commits, c.pep.pepID))
  }

  /** Every delta accepted under the PEP's name came with its checkpoint as the PEP sent it. */
  ghost predicate TakenAsSent(c: Setup, w: World) {
    forall i :: 0 <= i < |Deltas(c, w.server)| ==> SentAs(w.sent, Deltas(c, w.server)[i].checkpoint)
  }

  /** The request with the history the PEP sent under its checkpoint. */
  ghost function Genuine(c: Setup, sent: set<Evidence>, req: CapacityRequest): CapacityRequest {
    if req.pepID == c.pep.pepID && req.history.Some? && SentAs(sent, req.history.value.checkpoint) then
      var ev :| ev in sent && ev.checkpoint == req.history.value.checkpoint;
      req.(history := Some(ev))
    else req
  }

  /** What an impostor could have touched is the same in both worlds; in `v` requests are handled one at a time. */
  ghost predicate Mirrors(c: Setup, w: World, v: World) {
    && w.local == v.local && w.sent == v.sent
    && w.server.memory == v.server.memory && w.server.granted == v.server.granted
    && v.server.flights == map[]
    && SameEvents(AcceptedLog(c, w.server), AcceptedLog(c, v.server))
    && TakenAsSent(c, w)
  }

  /**
   The Verifier has taken what the PEP has pending, with the signature written differently.  The PEP and the
   accepted events are those of a world in which what is pending is still to be accepted.
   */
  ghost predicate Parted(c: Setup, w: World, v: World) {
    var vc, ours := VerifierCheckpoint(c, w.server), Pending(c, v);
    && w.local == v.local && w.sent == v.sent
    && ours.Some? && ours.value in w.sent && vc.Some?
    && SameBody(ours.value.checkpoint, vc.value) && vc.value != ours.value.checkpoint
    && ours.value.checkpoint.epoch == BaseEpoch(VerifierCheckpoint(c, v.server)) + 1
    && SameEvents(AcceptedLog(c, w.server), AcceptedLog(c, v.server) + ours.value.events)
  }

  ghost predicate FlightsKnown(c: Setup, s: Server, sent: set<Evidence>) {
    forall id :: id in s.flights ==> Known(c, sent, s.flights[id].req)
  }

  /** A token of this PEP belongs to an epoch before the stored checkpoint's, or to the stored checkpoint. */
  ghost predicate GrantsCurrent(c: Setup, s: Server) {
    forall tok :: tok in s.granted && tok.pepID == c.pep.pepID ==>
        CurrentGrant(c.pep.p, tok, VerifierCheckpoint(c, s))
  }

  ghost predicate CurrentGrant(p: Primitives, tok: Token, vc: Option<Checkpoint>) {
    && vc.Some?
    && (tok.historyEpoch < vc.value.epoch
        || (tok.historyEpoch == vc.value.epoch && tok.checkpointHash == HashCheckpoint(p, vc.value)))
  }

  ghost predicate OpenInvariant(c: Setup, w: World) {
    ServerInvariant(c.pep.p, c.ver, w.server) && FlightsKnown(c, w.server, w.sent) && GrantsCurrent(c, w.server)
  }

  // ---------- every step keeps it ----------

  lemma BeginKeepsOpen(c: Setup, w: World, id: nat, req: CapacityRequest)
    requires OpenInvariant(c, w)
    ensures OpenInvariant(c, OpenNetNext(c, w, VerifierMoves(BeginStep(id, req))))
  {
    hide ServerInvariant, GrantsCurrent, FlightsKnown, Unforged, ServerNext;
    ServerStepKeepsInvariant(c.pep.p, c.ver, w.server, BeginStep(id, req));
    if Unforged(c, w.sent, req) {
      BeginKnown(c, w.server, w.sent, id, req);
      BeginGrants(c, w.server, id, req);
    }
  }

  lemma BeginKnown(c: Setup, s: Server, sent: set<Evidence>, id: nat, req: CapacityRequest)
    requires FlightsKnown(c, s, sent) && Unforged(c, sent, req)
    ensures FlightsKnown(c, ServerNext(c.pep.p, c.ver, s, BeginStep(id, req)).0, sent)
  {
    hide Screen, IsRetry, Signed, VerifyCheckpoint;
    if Screen(c.ver, req).Success? {
      ScreenKeepsHistory(c.ver, req);
      ScreenKeepsKey(c.ver, req);
    }
  }

  lemma BeginGrants(c: Setup, s: Server, id: nat, req: CapacityRequest)
    requires ServerInvariant(c.pep.p, c.ver, s) && GrantsCurrent(c, s)
    ensures GrantsCurrent(c, ServerNext(c.pep.p, c.ver, s, BeginStep(id, req)).0)
  {
    hide EntryOf, Sequential, SequentialAnswers, FlightsCurrent, WellScreened, Screen, IsRetry, TokensBound,
      CurrentGrant;
    if Screen(c.ver, req).Success? {
      ScreenKeepsHistory(c.ver, req);
      StoredGrant(c, s, req.pepID);
    }
  }

  lemma StoredGrant(c: Setup, s: Server, pep: string)
    requires TokensBound(c.pep.p, s.memory)
    ensures CheckpointOf(s.memory, pep).Some? && TokenOf(s.memory, pep).pepID == c.pep.pepID ==>
      CurrentGrant(c.pep.p, TokenOf(s.memory, pep), VerifierCheckpoint(c, s))
  {
    if pep in s.memory.checkpoints {
      assert Binds(c.pep.p, s.memory.lastTokens[pep], s.memory.checkpoints[pep], pep);
    }
  }

  lemma FinishKeepsOpen(c: Setup, w: World, id: nat, now: int, saved: bool)
    requires OpenInvariant(c, w)
    ensures OpenInvariant(c, OpenNetNext(c, w, VerifierMoves(FinishStep(id, now, saved))))
  {
    hide ServerInvariant, GrantsCurrent, FlightsKnown, ServerNext;
    ServerStepKeepsInvariant(c.pep.p, c.ver, w.server, FinishStep(id, now, saved));
    FinishKnown(c, w.server, w.sent, id, now, saved);
    FinishGrants(c, w.server, id, now, saved);
  }

  lemma FinishKnown(c: Setup, s: Server, sent: set<Evidence>, id: nat, now: int, saved: bool)
    requires FlightsKnown(c, s, sent)
    ensures FlightsKnown(c, ServerNext(c.pep.p, c.ver, s, FinishStep(id, now, saved)).0, sent)
  {
    hide Known, Finish;
  }

  lemma FinishGrants(c: Setup, s: Server, id: nat, now: int, saved: bool)
    requires ServerInvariant(c.pep.p, c.ver, s) && GrantsCurrent(c, s)
    ensures GrantsCurrent(c, ServerNext(c.pep.p, c.ver, s, FinishStep(id, now, saved)).0)
  {
    hide EntryOf, Sequential, SequentialAnswers, FlightsCurrent, WellScreened, Finish, IsRetry, TokensBound,
      CurrentGrant;
    if id in s.flights && s.flights[id].req.history.Some? {
      var f := s.flights[id];
      if Finish(c.pep.p, c.ver, s.memory, f, now, saved).committed {
        CommitGrants(c, s, id, now, saved);
      } else {
        UncommittedFinish(c.pep.p, c.ver, s.memory, f, now, saved);
        StoredGrant(c, s, f.req.pepID);
      }
    }
  }

  lemma CommitGrants(c: Setup, s: Server, id: nat, now: int, saved: bool)
    requires GrantsCurrent(c, s) && id in s.flights && s.flights[id].req.history.Some?
    requires Finish(c.pep.p, c.ver, s.memory, s.flights[id], now, saved).committed
    ensures GrantsCurrent(c, ServerNext(c.pep.p, c.ver, s, FinishStep(id, now, saved)).0)
  {
    hide Finish, ValidEvidence, Appraise, HashCheckpoint;
    var f := s.flights[id];
    var v := CommittedFinish(c.pep.p, c.ver, s.memory, f, now, saved);
    CommitAdvancesEpoch(c.pep.p, c.ver, s.memory, f, now, saved);
  }

  lemma OpenNetStepKeeps(c: Setup, w: World, step: WorldStep)
    requires OpenInvariant(c, w)
    ensures OpenInvariant(c, OpenNetNext(c, w, step))
  {
    hide PepNext, ServerInvariant, VerifyCheckpoint, TokenUnforged, Unforged;
    match step
    case VerifierMoves(BeginStep(id, req)) => BeginKeepsOpen(c, w, id, req);
    case VerifierMoves(FinishStep(id, now, saved)) => FinishKeepsOpen(c, w, id, now, saved);
    case VerifierMoves(Restart) => RestartKeepsOpen(c, w);
    case _ =>
  }

  lemma RestartKeepsOpen(c: Setup, w: World)
    requires OpenInvariant(c, w)
    ensures OpenInvariant(c, OpenNetNext(c, w, VerifierMoves(Restart)))
  {
    ServerStepKeepsInvariant(c.pep.p, c.ver, w.server, Restart);
    hide EntryOf, Sequential, SequentialAnswers, FlightsCurrent, WellScreened, TokensBound, CurrentGrant;
  }
}
