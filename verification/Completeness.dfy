/** Honest PEPs are believed: the world of Authority with a PEP that takes only honest steps. */
module Completeness {
  import opened Wrappers
  import opened Protocol
  import opened Attest
  import opened Tokens
  import opened History
  import opened Policy
  import opened Lifecycle
  import opened Verifier
  import opened VerifierRuns
  import opened Pep
  import opened Authority
  import opened SessionTable
  import opened DeltaReplay
  import opened HonestEvents
  import opened HonestRuns

  /** What the Verifier stores of this PEP is where the accepted log, replayed in one piece, comes to rest. */
  ghost predicate ServerRests(c: Setup, s: Server) {
    var r := Replay(Context(c.pep, c.ver), NOTHING, AcceptedLog(c, s));
    r.Success? && AllSettled(r.value.stages) && r.value.active == ActiveOf(s.memory, c.pep.pepID)
  }

  ghost predicate FlightsHonest(c: Setup, s: Server) {
    forall id :: id in s.flights && s.flights[id].req.pepID == c.pep.pepID ==> IsRequest(c, s.flights[id].req)
  }

  /** The request the PEP makes for some history, as the Verifier screens it. */
  predicate IsRequest(c: Setup, req: CapacityRequest) {
    req.history.Some? && Screen(c.ver, RequestFor(c.pep, req.history.value)) == Success(req)
  }

  /** Both of the Verifier's checks succeed against what it stores now. */
  ghost predicate Acceptable(c: Setup, ev: Evidence, s: Server) {
    && ValidEvidence(c.pep.p, ev, c.pep.pepID, c.pep.publicKey, VerifierCheckpoint(c, s))
    && Appraise(Context(c.pep, c.ver), ev, ActiveOf(s.memory, c.pep.pepID)).Some?
  }

  function Pending(c: Setup, w: World): Option<Evidence> {
    DiskState(c, w.local.node).pendingCapacity
  }

  predicate Committed(c: Setup, s: Server, ev: Evidence) {
    VerifierCheckpoint(c, s) == Some(ev.checkpoint)
  }

  ghost predicate PendingAcceptable(c: Setup, w: World) {
    var pending := Pending(c, w);
    pending.Some? && !Committed(c, w.server, pending.value) ==> Acceptable(c, pending.value, w.server)
  }

  /** The stored token was issued at `now` for the PEP's request with this history, whose checkpoint is stored. */
  ghost predicate IsStored(c: Setup, s: Server, ev: Evidence, now: int) {
    var screened := Screen(c.ver, RequestFor(c.pep, ev));
    && screened.Success? && screened.value.history == Some(ev)
    && Committed(c, s, ev) && ev.checkpoint.pepID == c.pep.pepID
    && VerifyCheckpoint(c.pep.p, ev.checkpoint, screened.value.pepSigningPubKey)
    && SignToken(c.pep.p, NewToken(c.pep.p, c.ver, screened.value, now), c.ver.privateKey)
       == Some(TokenOf(s.memory, c.pep.pepID))
  }

  /** What the Verifier has committed, the PEP sent. */
  ghost predicate StoredWasSent(c: Setup, s: Server, sent: set<Evidence>) {
    VerifierCheckpoint(c, s).Some? ==> exists ev, now :: ev in sent && IsStored(c, s, ev, now)
  }

  ghost predicate HonestInvariant(c: Setup, w: World) {
    && WorldInvariant(c, w) && HonestLocal(c, w.local)
    && ServerRests(c, w.server) && FlightsHonest(c, w.server) && PendingAcceptable(c, w)
    && StoredWasSent(c, w.server, w.sent)
  }

  // ---------- building evidence ----------

  lemma LogSummarised(c: Setup, s: Server)
    requires ServerInvariant(c.pep.p, c.ver, s)
    ensures LastHash(AcceptedLog(c, s), "") == BaseHash(VerifierCheckpoint(c, s))
  {
    hide TokensBound, FlightsCurrent, WellScreened, Sequential, SequentialAnswers, AcceptedRun, FinalActive,
      AllEvents, AcceptedDeltas, ByPep;
    var pep := c.pep.pepID;
    var mine := ByPep(s.commits, pep);
    assert EntryOf(c.pep.p, c.ver, s.memory, s.commits, pep);
    if mine == [] {
      NoDeltas();
    } else {
      AcceptedRunIsChain(c.pep.p, pep, c.ver.enrolled[pep], AcceptedDeltas(mine));
    }
  }

  lemma NoDeltas()
    ensures AcceptedDeltas([]) == [] && AllEvents([]) == []
  {
  }

  /** The log of a PEP in step with the Verifier, cut at the Verifier's checkpoint. */
  lemma StepIsMarked(c: Setup, h: HistoryState, s: Server)
    requires ServerInvariant(c.pep.p, c.ver, s)
    requires AcceptedMatches(c.pep.p, h, VerifierCheckpoint(c, s)) && AcceptedLog(c, s) <= h.events
    requires |AcceptedLog(c, s)| == BaseIndex(VerifierCheckpoint(c, s))
    ensures Marked(c.pep.p, h, VerifierCheckpoint(c, s))
  {
    hide ServerInvariant, AcceptedLog;
    LogSummarised(c, s);
    assert h.events[..|AcceptedLog(c, s)|] == AcceptedLog(c, s);
  }

  /** Evidence an honest PEP builds between transactions is accepted exactly if none of its sessions has lapsed. */
  lemma BuiltIsAcceptable(c: Setup, st: PepState, s: Server, now: int)
    requires Rfc3339(c.pep.p) && KeyPair(c.pep.p, c.pep.publicKey, c.pep.privateKey)
    requires ServerInvariant(c.pep.p, c.ver, s) && ServerRests(c, s)
    requires Sound(c.pep, c.ver, st, Idle)
    requires InStep(c.pep.p, st, None, VerifierCheckpoint(c, s), AcceptedLog(c, s))
    ensures var built := Build(c.pep.p, st.history, c.pep.privateKey, now);
      built.Success? && (Acceptable(c, built.value, s) <==> NoneLapsed(c.pep, st.sessions, now))
  {
    hide ServerInvariant, AcceptedLog, WellFormed, Marked, ValidEvidence, Orderly, Replay, TableMatches, AllSettled,
      HashCheckpoint;
    var h, log := st.history, AcceptedLog(c, s);
    StepIsMarked(c, h, s);
    BuiltEvidenceIsValid(c.pep.p, h, VerifierCheckpoint(c, s), c.pep.publicKey, c.pep.privateKey, now);
    var ev := Build(c.pep.p, h, c.pep.privateKey, now).value;
    assert h.events == log + ev.events;
    DeltaReplays(Context(c.pep, c.ver), log, ev.events);
    var full := Whole(c.pep, c.ver, h).value;
    NothingBusy(full.stages);
    TableUnexpired(c, st, full.active, now);
  }

  lemma NothingBusy(stages: map<string, Stage>)
    ensures RestedBut(stages, None) <==> AllSettled(stages)
  {
  }

  lemma TableUnexpired(c: Setup, st: PepState, active: ActiveMap, now: int)
    requires Rfc3339(c.pep.p) && TableMatches(Planned(c.pep), st.sessions, active)
    requires forall id :: id in st.sessions ==> Orderly(c.pep, st.sessions[id])
    ensures c.pep.p.parseTime(c.pep.p.formatTime(now)).Some?
    ensures AllUnexpired(c.pep.p, active, c.pep.p.parseTime(c.pep.p.formatTime(now)).value)
            <==> NoneLapsed(c.pep, st.sessions, now)
  {
    hide KeyOf, PlanDigest, AllUnexpired;
    assert c.pep.p.parseTime(c.pep.p.formatTime(now)) == Some(FloorSecond(now));
    forall id | id in st.sessions
      ensures KeyOf(st.sessions[id]) in active
      ensures Unexpired(c.pep.p, active[KeyOf(st.sessions[id])], FloorSecond(now))
              <==> !Lapsed(c.pep, st.sessions[id], now)
    {
      assert Orderly(c.pep, st.sessions[id]);
      assert Lookup(active, KeyOf(st.sessions[id])) == Some(Planned(c.pep)(st.sessions[id]));
      WholeSecondReached(c.pep.p.parseTime(st.sessions[id].expiresAt).value, now);
    }
    EveryActive(c.pep.p, st.sessions, active, FloorSecond(now));
  }

  /** Checking every active entry is checking every session of the table. */
  lemma EveryActive(p: Primitives, sessions: map<string, Session>, active: ActiveMap, at: int)
    requires forall id :: id in sessions ==> KeyOf(sessions[id]) in active
    requires forall k :: k in active ==> exists id :: id in sessions && KeyOf(sessions[id]) == k
    ensures AllUnexpired(p, active, at)
            <==> forall id :: id in sessions ==> Unexpired(p, active[KeyOf(sessions[id])], at)
  {
    hide KeyOf, Unexpired;
    if forall id :: id in sessions ==> Unexpired(p, active[KeyOf(sessions[id])], at) {
      forall k | k in active ensures Unexpired(p, active[k], at) {
        var id :| id in sessions && KeyOf(sessions[id]) == k;
      }
    }
  }

  // ---------- PEP steps ----------

  lemma PrepareAcceptable(c: Setup, w: World, now: int, now': int, writable: bool)
    requires Rfc3339(c.pep.p) && KeyPair(c.pep.p, c.pep.publicKey, c.pep.privateKey)
    requires HonestInvariant(c, w) && w.local.up && w.local.txn.Idle?
    requires w.local.node.mem.pendingCapacity.None? ==> NoneLapsed(c.pep, w.local.node.mem.sessions, now')
    ensures PendingAcceptable(c, WorldNext(c, w, PepMoves(PrepareStep(now, now', writable))))
  {
    hide Sound, ServerInvariant, AcceptedLog, Append, Build, ServerRests, FlightsHonest, Acceptable, JoinComma, InStep,
      NoneLapsed, StoredWasSent;
    var n := w.local.node;
    if n.mem.pendingCapacity.None? && writable {
      var meta := Some(map["scope" := JoinComma(c.pep.scope)]);
      var asked := Log(c.pep, n, now, "capacity_requested", None, meta);
      AskedInStep(c, w, now);
      BuiltIsAcceptable(c, asked.mem, w.server, now');
    } else {
      PendingIsShared(c, w);
    }
  }

  lemma PendingIsShared(c: Setup, w: World)
    requires WorldInvariant(c, w) && w.local.up
    ensures w.local.node.mem.pendingCapacity == Pending(c, w)
  {
  }

  lemma AskedInStep(c: Setup, w: World, now: int)
    requires Rfc3339(c.pep.p) && WorldInvariant(c, w) && HonestLocal(c, w.local)
    requires w.local.up && w.local.txn.Idle? && w.local.node.mem.pendingCapacity.None?
    ensures var asked := Log(c.pep, w.local.node, now, "capacity_requested", None,
                             Some(map["scope" := JoinComma(c.pep.scope)]));
      && Sound(c.pep, c.ver, asked.mem, Idle)
      && InStep(c.pep.p, asked.mem, None, VerifierCheckpoint(c, w.server), AcceptedLog(c, w.server))
  {
    hide Good, ServerInvariant, AcceptedLog, Append, JoinComma, InStep, ServerMatches, SentBound, OneEvidencePerEpoch;
    var n := w.local.node;
    var meta := Some(map["scope" := JoinComma(c.pep.scope)]);
    PendingIsShared(c, w);
    LogKeepsStep(c.pep, n, now, "capacity_requested", None, meta, None, VerifierCheckpoint(c, w.server),
                 AcceptedLog(c, w.server));
    QuietKeepsGood(c.pep, c.ver, n, now, "capacity_requested", meta);
  }

  /** The PEP's steps are honest, and its requests reach the Verifier as it made them. */
  ghost predicate HonestStep(c: Setup, w: World, step: WorldStep) {
    match step
    case PepMoves(s) => HonestPepStep(c, w.local, s)
    case Send => true
    case VerifierMoves(s) => HonestServerStep(c, s)
  }

  predicate HonestServerStep(c: Setup, step: ServerStep) {
    step.BeginStep? && step.req.pepID == c.pep.pepID ==>
      step.req.history.Some? && step.req == RequestFor(c.pep, step.req.history.value)
  }

  lemma HonestPepStepKeeps(c: Setup, w: World, step: PepStep)
    requires Rfc3339(c.pep.p) && KeyPair(c.pep.p, c.pep.publicKey, c.pep.privateKey) && Compatible(c.pep, c.ver)
    requires HonestInvariant(c, w) && HonestPepStep(c, w.local, step)
    ensures HonestInvariant(c, WorldNext(c, w, PepMoves(step)))
  {
    hide WorldInvariant, HonestLocal, ServerRests, FlightsHonest, PendingAcceptable, StoredWasSent, Compatible, PepNext,
      HonestPepStep;
    PepStepKeepsInvariant(c, w, step);
    PepStepSound(c, w.local, step);
    if step.PrepareStep? && w.local.up && w.local.txn.Idle? {
      PrepareNotLapsed(c, w.local, step);
      PrepareAcceptable(c, w, step.now, step.now', step.writable);
    } else {
      OtherStepsKeepPending(c, w, step);
    }
  }

  lemma PrepareNotLapsed(c: Setup, l: Local, step: PepStep)
    requires HonestPepStep(c, l, step) && step.PrepareStep? && l.up
    ensures l.node.mem.pendingCapacity.None? ==> NoneLapsed(c.pep, l.node.mem.sessions, step.now')
  {
  }

  /** Only preparing a request makes new evidence pending. */
  lemma OtherStepsKeepPending(c: Setup, w: World, step: PepStep)
    requires WorldInvariant(c, w) && PendingAcceptable(c, w)
    requires !(step.PrepareStep? && w.local.up && w.local.txn.Idle?)
    ensures PendingAcceptable(c, WorldNext(c, w, PepMoves(step)))
  {
    hide ServerInvariant, AcceptedLog, Acceptable, Load, AcceptToken, SentBound, OneEvidencePerEpoch, Next,
      AcceptedMatches, Handed;
    var vc, log := VerifierCheckpoint(c, w.server), AcceptedLog(c, w.server);
    if step.RestartStep? {
      RestartIsTame(c, w.local, step.now, Pending(c, w), vc, log);
    } else if w.local.up {
      if step.ReceiveStep? {
        if Handed(w.server.granted, step.tok) {
          HandedInStep(c, w.server, w.sent, step.tok);
          ReceiveIsTame(c, w.local.node, step.tok, step.now, step.now', step.writable, Pending(c, w), vc, log);
        }
      } else if !step.PrepareStep? {
        TransactionStepIsTame(c, w.local, step, Pending(c, w), vc, log);
      }
    }
  }

  // ---------- Verifier steps ----------

  /** What the Verifier stores of this PEP, untouched. */
  ghost predicate SameForPep(c: Setup, s: Server, s': Server) {
    && VerifierCheckpoint(c, s') == VerifierCheckpoint(c, s)
    && ActiveOf(s'.memory, c.pep.pepID) == ActiveOf(s.memory, c.pep.pepID)
    && TokenOf(s'.memory, c.pep.pepID) == TokenOf(s.memory, c.pep.pepID)
    && AcceptedLog(c, s') == AcceptedLog(c, s)
  }

  lemma BeginHonest(c: Setup, s: Server, sent: set<Evidence>, id: nat, req: CapacityRequest)
    requires FlightsHonest(c, s) && Deliverable(c, sent, req) && HonestServerStep(c, BeginStep(id, req))
    ensures var s' := ServerNext(c.pep.p, c.ver, s, BeginStep(id, req)).0;
      FlightsHonest(c, s') && SameForPep(c, s, s')
  {
    hide Screen, IsRetry, ContextOf, AllEvents, AcceptedDeltas, ByPep, RequestFor;
    if Screen(c.ver, req).Success? {
      ScreenKeepsHistory(c.ver, req);
    }
  }

  lemma FinishHonest(c: Setup, s: Server, sent: set<Evidence>, id: nat, now: int, saved: bool, events: seq<Event>)
    requires ServerInvariant(c.pep.p, c.ver, s) && FlightsHonest(c, s) && ServerRests(c, s)
    requires var s' := ServerNext(c.pep.p, c.ver, s, FinishStep(id, now, saved)).0;
      AcceptedLog(c, s') <= events && Replay(Context(c.pep, c.ver), NOTHING, events).Success?
    ensures var s' := ServerNext(c.pep.p, c.ver, s, FinishStep(id, now, saved)).0;
      && FlightsHonest(c, s') && ServerRests(c, s')
      && (!SameForPep(c, s, s') ==>
            && BaseEpoch(VerifierCheckpoint(c, s')) == BaseEpoch(VerifierCheckpoint(c, s)) + 1
            && id in s.flights && s.flights[id].req.pepID == c.pep.pepID && s.flights[id].req.history.Some?
            && IsStored(c, s', s.flights[id].req.history.value, now))
  {
    hide Finish, ServerInvariant, ContextOf, AcceptedLog, ServerRests, IsStored, IsRequest;
    if id in s.flights && s.flights[id].req.history.Some? {
      var f := s.flights[id];
      var s' := ServerNext(c.pep.p, c.ver, s, FinishStep(id, now, saved)).0;
      if !Finish(c.pep.p, c.ver, s.memory, f, now, saved).committed {
        UncommittedFinish(c.pep.p, c.ver, s.memory, f, now, saved);
        SameCommits(c, s, s');
      } else if f.req.pepID != c.pep.pepID {
        OtherCommit(c, s, id, now, saved);
      } else {
        OwnCommit(c, s, id, now, saved, events);
        OwnCommitStored(c, s, id, now, saved);
        CommitAdvancesEpoch(c.pep.p, c.ver, s.memory, f, now, saved);
      }
    }
  }

  lemma SameCommits(c: Setup, s: Server, s': Server)
    requires s'.commits == s.commits && s'.memory == s.memory
    ensures SameForPep(c, s, s') && (ServerRests(c, s) ==> ServerRests(c, s'))
  {
  }

  lemma OtherCommit(c: Setup, s: Server, id: nat, now: int, saved: bool)
    requires id in s.flights && s.flights[id].req.history.Some? && s.flights[id].req.pepID != c.pep.pepID
    requires Finish(c.pep.p, c.ver, s.memory, s.flights[id], now, saved).committed && ServerRests(c, s)
    ensures var s' := ServerNext(c.pep.p, c.ver, s, FinishStep(id, now, saved)).0;
      SameForPep(c, s, s') && ServerRests(c, s')
  {
    hide Finish, ValidEvidence, Appraise, AllEvents, AcceptedDeltas, ByPep, Replay;
    var f := s.flights[id];
    var v := CommittedFinish(c.pep.p, c.ver, s.memory, f, now, saved);
    CommitAdvancesEpoch(c.pep.p, c.ver, s.memory, f, now, saved);
    LogOfCommits(c, s.commits, CommitRecord(f.req, now, v.tok));
    assert AllEvents(AcceptedDeltas(ByPep(s.commits, c.pep.pepID))) + []
           == AllEvents(AcceptedDeltas(ByPep(s.commits, c.pep.pepID)));
  }

  /** A committed delta of an honest log: the appraisal ends where the whole replay does. */
  lemma OwnCommit(c: Setup, s: Server, id: nat, now: int, saved: bool, events: seq<Event>)
    requires ServerInvariant(c.pep.p, c.ver, s) && FlightsHonest(c, s) && ServerRests(c, s)
    requires id in s.flights && s.flights[id].req.history.Some? && s.flights[id].req.pepID == c.pep.pepID
    requires Finish(c.pep.p, c.ver, s.memory, s.flights[id], now, saved).committed
    requires AcceptedLog(c, ServerNext(c.pep.p, c.ver, s, FinishStep(id, now, saved)).0) <= events
    requires Replay(Context(c.pep, c.ver), NOTHING, events).Success?
    ensures ServerRests(c, ServerNext(c.pep.p, c.ver, s, FinishStep(id, now, saved)).0)
  {
    hide Finish, ValidEvidence, AllEvents, AcceptedDeltas, ByPep, Replay, EntryOf, TokensBound, Sequential,
      SequentialAnswers, WellScreened, ContextOf, Screened, AllUnexpired, Screen;
    var f := s.flights[id];
    ScreenedContext(c.pep, c.ver, f.req.history.value);
    var ctx := Context(c.pep, c.ver);
    var s' := ServerNext(c.pep.p, c.ver, s, FinishStep(id, now, saved)).0;
    var v := CommittedFinish(c.pep.p, c.ver, s.memory, f, now, saved);
    var r := CommitRecord(f.req, now, v.tok);
    LogOfCommits(c, s.commits, r);
    var log, delta := AcceptedLog(c, s), f.req.history.value.events;
    assert AcceptedLog(c, s') == log + delta;
    assert FlightCurrent(c.ver, s.memory, f);
    PrefixReplays(ctx, NOTHING, log + delta, events);
    DeltaReplays(ctx, log, delta);
  }

  lemma OwnCommitStored(c: Setup, s: Server, id: nat, now: int, saved: bool)
    requires FlightsHonest(c, s)
    requires id in s.flights && s.flights[id].req.history.Some? && s.flights[id].req.pepID == c.pep.pepID
    requires Finish(c.pep.p, c.ver, s.memory, s.flights[id], now, saved).committed
    ensures IsStored(c, ServerNext(c.pep.p, c.ver, s, FinishStep(id, now, saved)).0, s.flights[id].req.history.value,
                     now)
  {
    hide Finish, Appraise, Chained, Screen, NewToken;
    var v := CommittedFinish(c.pep.p, c.ver, s.memory, s.flights[id], now, saved);
  }

  lemma RestartHonest(c: Setup, s: Server)
    requires ServerInvariant(c.pep.p, c.ver, s) && ServerRests(c, s)
    ensures var s' := ServerNext(c.pep.p, c.ver, s, Restart).0;
      FlightsHonest(c, s') && ServerRests(c, s') && SameForPep(c, s, s')
  {
    hide EntryOf, Sequential, SequentialAnswers, FlightsCurrent, WellScreened, AllEvents, AcceptedDeltas, ByPep,
      TokensBound, Replay;
  }

  lemma HonestVerifierStepKeeps(c: Setup, w: World, step: ServerStep)
    requires HonestInvariant(c, w) && HonestServerStep(c, step)
    ensures HonestInvariant(c, WorldNext(c, w, VerifierMoves(step)))
  {
    hide HonestLocal, ServerRests, FlightsHonest, ServerNext, ServerInvariant, AcceptedLog, Deliverable,
      OneEvidencePerEpoch, InStep, SentBound, Acceptable, IsStored, HonestServerStep;
    var w' := WorldNext(c, w, VerifierMoves(step));
    VerifierStepKeepsInvariant(c, w, step);
    if !(step.BeginStep? && !Deliverable(c, w.sent, step.req)) {
      var s := w.server;
      var events := DiskState(c, w.local.node).history.events;
      LogWithinDisk(c, w');
      DiskReplays(c, w.local);
      match step {
        case BeginStep(id, req) => BeginHonest(c, s, w.sent, id, req); SameRests(c, s, w'.server);
        case FinishStep(id, now, saved) => FinishHonest(c, s, w.sent, id, now, saved, events);
        case Restart => RestartHonest(c, s);
      }
      if SameForPep(c, s, w'.server) {
        SameAcceptable(c, w, w');
        SameStored(c, s, w'.server, w.sent);
      } else {
        AdvancedIsCommitted(c, w, w');
      }
    }
  }

  lemma SameRests(c: Setup, s: Server, s': Server)
    requires ServerRests(c, s) && SameForPep(c, s, s')
    ensures ServerRests(c, s')
  {
  }

  lemma SameAcceptable(c: Setup, w: World, w': World)
    requires SameForPep(c, w.server, w'.server) && w'.local == w.local && PendingAcceptable(c, w)
    ensures PendingAcceptable(c, w')
  {
    hide ValidEvidence, Appraise;
  }

  lemma SameStored(c: Setup, s: Server, s': Server, sent: set<Evidence>)
    requires SameForPep(c, s, s') && StoredWasSent(c, s, sent)
    ensures StoredWasSent(c, s', sent)
  {
    hide SignToken, NewToken, Screen;
    if VerifierCheckpoint(c, s).Some? {
      var ev, now :| ev in sent && IsStored(c, s, ev, now);
      assert IsStored(c, s', ev, now);
    }
  }

  lemma LogWithinDisk(c: Setup, w: World)
    requires WorldInvariant(c, w)
    ensures AcceptedLog(c, w.server) <= DiskState(c, w.local.node).history.events
  {
  }

  lemma DiskReplays(c: Setup, l: Local)
    requires HonestLocal(c, l)
    ensures Replay(Context(c.pep, c.ver), NOTHING, DiskState(c, l.node).history.events).Success?
  {
  }

  /** If the Verifier has moved on, then to what was pending. */
  lemma AdvancedIsCommitted(c: Setup, w: World, w': World)
    requires WorldInvariant(c, w) && WorldInvariant(c, w') && w'.local == w.local && w'.sent == w.sent
    requires BaseEpoch(VerifierCheckpoint(c, w'.server)) == BaseEpoch(VerifierCheckpoint(c, w.server)) + 1
    ensures PendingAcceptable(c, w')
  {
    hide ServerInvariant, ServerMatches, OneEvidencePerEpoch, Acceptable, AcceptedLog;
  }

  // ---------- every honest run ----------

  ghost predicate HonestRun(c: Setup, steps: seq<WorldStep>) {
    forall i :: 0 <= i < |steps| ==> HonestStep(c, WorldRun(c, steps[..i]), steps[i])
  }

  lemma InitialHonest(c: Setup)
    ensures HonestInvariant(c, InitialWorld(c))
  {
    InitialInvariant(c);
  }

  lemma {:induction false} HonestRunKeeps(c: Setup, steps: seq<WorldStep>)
    requires Rfc3339(c.pep.p) && KeyPair(c.pep.p, c.pep.publicKey, c.pep.privateKey) && Compatible(c.pep, c.ver)
    requires HonestRun(c, steps)
    ensures HonestInvariant(c, WorldRun(c, steps))
    decreases |steps|
  {
    hide HonestInvariant, WorldNext, Compatible, HonestStep;
    if steps == [] {
      InitialHonest(c);
    } else {
      var n := |steps| - 1;
      forall i | 0 <= i < n ensures HonestStep(c, WorldRun(c, steps[..n][..i]), steps[..n][i]) {
        assert steps[..n][..i] == steps[..i];
      }
      HonestRunKeeps(c, steps[..n]);
      HonestWorldStepKeeps(c, WorldRun(c, steps[..n]), steps[n]);
    }
  }

  lemma HonestWorldStepKeeps(c: Setup, w: World, step: WorldStep)
    requires Rfc3339(c.pep.p) && KeyPair(c.pep.p, c.pep.publicKey, c.pep.privateKey) && Compatible(c.pep, c.ver)
    requires HonestInvariant(c, w) && HonestStep(c, w, step)
    ensures HonestInvariant(c, WorldNext(c, w, step))
  {
    hide WorldInvariant, HonestLocal, ServerRests, FlightsHonest, PendingAcceptable, Compatible, PepNext,
      HonestPepStep, IsStored;
    match step
    case PepMoves(s) => HonestPepStepKeeps(c, w, s);
    case Send =>
      SendKeepsInvariant(c, w);
      SendKeepsPending(c, w);
    case VerifierMoves(s) => HonestVerifierStepKeeps(c, w, s);
  }

  lemma SendKeepsPending(c: Setup, w: World)
    requires PendingAcceptable(c, w)
    ensures PendingAcceptable(c, WorldNext(c, w, Send))
  {
  }

  /**
   Completeness: in every run in which the PEP takes honest steps, take any evidence it has pending or has ever
   sent, and make the request for it.  If the evidence is ahead of the Verifier's checkpoint, it passes the chain
   check and the policy check against what the Verifier stores at that moment, and a request that passes the
   screening is granted and committed.  If it is the one the Verifier has committed, so that only the answer can
   have been lost, the request is answered with the stored token and changes nothing.
   */
  lemma HonestEvidenceIsAccepted(c: Setup, steps: seq<WorldStep>, ev: Evidence, now: int, saved: bool)
    requires Rfc3339(c.pep.p) && KeyPair(c.pep.p, c.pep.publicKey, c.pep.privateKey) && Compatible(c.pep, c.ver)
    requires KeyPair(c.pep.p, c.ver.publicKey, c.ver.privateKey)
    requires HonestRun(c, steps)
    requires var w := WorldRun(c, steps); ev in w.sent || Pending(c, w) == Some(ev)
    ensures var s := WorldRun(c, steps).server;
      var epoch, req := BaseEpoch(VerifierCheckpoint(c, s)), RequestFor(c.pep, ev);
      && (ev.checkpoint.epoch > epoch ==>
            && Acceptable(c, ev, s)
            && (Screen(c.ver, req).Success? ==> Atomic(c.pep.p, c.ver, s.memory, req, now, true).committed))
      && (ev.checkpoint.epoch == epoch && VerifierCheckpoint(c, s).Some? && c.ver.tokenTTLSeconds > 0 ==>
            Atomic(c.pep.p, c.ver, s.memory, req, now, saved)
            == Verifier.Finished.Finished(s.memory, Granted(TokenOf(s.memory, c.pep.pepID)), false))
  {
    hide HonestRun, WorldRun, ServerInvariant, InStep, HonestLocal, ServerMatches, AcceptedLog, Compatible, ServerRests,
      FlightsHonest, Acceptable, OneEvidencePerEpoch, Screen, Atomic, IsStored;
    var w := WorldRun(c, steps);
    HonestRunKeeps(c, steps);
    if ev.checkpoint.epoch > BaseEpoch(VerifierCheckpoint(c, w.server)) {
      assert Pending(c, w) == Some(ev) && !Committed(c, w.server, ev);
      if Screen(c.ver, RequestFor(c.pep, ev)).Success? {
        AcceptableIsGranted(c, w.server, ev, now);
      }
    } else if ev.checkpoint.epoch == BaseEpoch(VerifierCheckpoint(c, w.server))
      && VerifierCheckpoint(c, w.server).Some? {
      var stored, issued :| stored in w.sent && IsStored(c, w.server, stored, issued);
      StoredIsThis(c, w, stored, issued, ev);
      if c.ver.tokenTTLSeconds > 0 {
        StoredIsReplayed(c, w.server, ev, issued, now, saved);
      }
    }
  }

  /** One evidence per epoch: what is stored is the evidence of that epoch. */
  lemma StoredIsThis(c: Setup, w: World, stored: Evidence, issued: int, ev: Evidence)
    requires WorldInvariant(c, w) && stored in w.sent && IsStored(c, w.server, stored, issued)
    requires ev in w.sent || Pending(c, w) == Some(ev)
    requires ev.checkpoint.epoch == BaseEpoch(VerifierCheckpoint(c, w.server))
    ensures stored == ev
  {
    hide ServerInvariant, ServerMatches, AcceptedLog, Screen, NewToken, SignToken, AcceptedMatches;
  }

  /** A request whose answer was lost is answered again. */
  lemma StoredIsReplayed(c: Setup, s: Server, ev: Evidence, issued: int, now: int, saved: bool)
    requires Rfc3339(c.pep.p) && KeyPair(c.pep.p, c.ver.publicKey, c.ver.privateKey) && c.ver.tokenTTLSeconds > 0
    requires IsStored(c, s, ev, issued)
    ensures Atomic(c.pep.p, c.ver, s.memory, RequestFor(c.pep, ev), now, saved)
            == Verifier.Finished.Finished(s.memory, Granted(TokenOf(s.memory, c.pep.pepID)), false)
  {
    hide Finish, VerifyCapacityToken, Screen;
    var req := RequestFor(c.pep, ev);
    ScreenKeepsHistory(c.ver, req);
    var screened, tok := Screen(c.ver, req).value, TokenOf(s.memory, c.pep.pepID);
    FreshTokenVerifies(c.pep.p, c.ver, screened, issued, tok);
    SameScope(tok.scope);
    assert IsRetry(c.pep.p, c.ver, screened, ev.checkpoint, tok);
  }

  lemma AcceptableIsGranted(c: Setup, s: Server, ev: Evidence, now: int)
    requires KeyPair(c.pep.p, c.ver.publicKey, c.ver.privateKey)
    requires Acceptable(c, ev, s) && Screen(c.ver, RequestFor(c.pep, ev)).Success?
    ensures Atomic(c.pep.p, c.ver, s.memory, RequestFor(c.pep, ev), now, true).committed
  {
    hide Screen, Appraise, Chained, SigningBody, VerifyCapacityToken, ContextOf;
    var req := RequestFor(c.pep, ev);
    ScreenKeepsHistory(c.ver, req);
    ScreenKeepsKey(c.ver, req);
    ScreenedContext(c.pep, c.ver, ev);
  }

  lemma ScreenKeepsKey(cfg: VerifierConfig, req: CapacityRequest)
    requires Screen(cfg, req).Success?
    ensures Screen(cfg, req).value.pepSigningPubKey == req.pepSigningPubKey
  {
  }
}
