/**
 The PEP and the Verifier together.  Requests and responses may be lost, duplicated and delayed, writes of
 either state file may fail, either process may crash between any two steps and reload its file, and other
 PEPs may send the Verifier whatever they like.
 */
module Authority {
  import opened Wrappers
  import opened Protocol
  import opened Attest
  import opened Tokens
  import opened History
  import opened Policy
  import opened Lifecycle
  import opened Verifier
  import opened VerifierRuns
  import opened Pep
  import opened OpenSessions

  // ---------- the PEP process ----------

  datatype Txn =
    | Idle
    | ApplyBegun(s: Session)
    | ApplySeen(s: Session)
    | DeleteBegun(s: Session)
    | DeleteSeen(s: Session)

  datatype Local = Local(up: bool, node: Node, txn: Txn)

  datatype PepStep =
    | BeginApplyStep(s: Session, now: int, writable: bool)
    | KernelFails
    | ObserveApplyStep(now: int, observed: Metadata)
    | FinishApplyStep(now: int, writable: bool)
    | BeginDeleteStep(spi: string, clock: int, now: int, now': int, writable: bool)
    | ObserveDeleteStep(now: int, observed: Metadata)
    | FinishDeleteStep(writable: bool)
    | PrepareStep(now: int, now': int, writable: bool)
    | ReceiveStep(tok: Token, now: int, now': int, writable: bool)
    | RestartStep(now: int)

  function StartMeta(cfg: PepConfig): Metadata {
    map["measurement" := cfg.measurement, "policy_hash" := cfg.policyHash,
        "history_mode" := "hash-chain-xfrm-observation"]
  }

  /** A crash, whatever the process was doing, and the start of a new process on the state file. */
  ghost function Boot(cfg: PepConfig, disk: Option<PepFile>, now: int): Local {
    match Load(cfg, disk)
    case Failure(_) => Local(false, Node(EmptyPep(cfg.pepID), disk), Idle)
    case Success(mem) => Local(true, Log(cfg, Node(mem, disk), now, "pep_start", None, Some(StartMeta(cfg))), Idle)
  }

  /** A step that does not apply leaves the process as it is.  The transaction lock is `txn`. */
  ghost function PepNext(cfg: PepConfig, l: Local, step: PepStep): Local {
    if step.RestartStep? then Boot(cfg, l.node.disk, step.now)
    else if !l.up then l
    else
      match (step, l.txn)
      case (BeginApplyStep(s, now, writable), Idle) =>
        l.(node := BeginApply(cfg, l.node, s, now, writable), txn := if writable then ApplyBegun(s) else Idle)
      case (KernelFails, ApplyBegun(_)) => l.(txn := Idle)
      case (KernelFails, DeleteBegun(_)) => l.(txn := Idle)
      case (ObserveApplyStep(now, observed), ApplyBegun(s)) =>
        l.(node := ObserveApply(cfg, l.node, s, now, observed),
           txn := if MeetsLocalProfile(cfg, ObservedMeta(cfg, s, observed), "applied") then ApplySeen(s) else Idle)
      case (FinishApplyStep(now, writable), ApplySeen(s)) =>
        l.(node := FinishApply(cfg, l.node, s, now, writable), txn := Idle)
      case (BeginDeleteStep(spi, clock, now, now', writable), Idle) =>
        if spi !in l.node.mem.sessions || !Lapsed(cfg, l.node.mem.sessions[spi], clock) then l
        else
          var s := l.node.mem.sessions[spi];
          l.(node := BeginDelete(cfg, l.node, s, now, now', writable), txn := if writable then DeleteBegun(s) else Idle)
      case (ObserveDeleteStep(now, observed), DeleteBegun(s)) =>
        l.(node := ObserveDelete(cfg, l.node, s, now, observed),
           txn := if MeetsLocalProfile(cfg, ObservedMeta(cfg, s, observed), "deleted") then DeleteSeen(s) else Idle)
      case (FinishDeleteStep(writable), DeleteSeen(s)) => l.(node := FinishDelete(l.node, s, writable), txn := Idle)
      case (PrepareStep(now, now', writable), Idle) => l.(node := PrepareCapacity(cfg, l.node, now, now', writable).0)
      case (ReceiveStep(tok, now, now', writable), Idle) =>
        l.(node := AcceptToken(cfg, l.node, tok, now, now', writable).0)
      case _ => l
  }

  ghost function PepFrom(cfg: PepConfig, l: Local, steps: seq<PepStep>): Local {
    if steps == [] then l else PepNext(cfg, PepFrom(cfg, l, steps[..|steps| - 1]), steps[|steps| - 1])
  }

  const DOWN: Local := Local(false, Node(EmptyPep(""), None), Idle)

  /** The process after any run on a machine without a state file. */
  ghost function PepRun(cfg: PepConfig, steps: seq<PepStep>): Local {
    PepFrom(cfg, DOWN, steps)
  }

  // ---------- the two parties ----------

  datatype Setup = Setup(pep: PepConfig, ver: VerifierConfig)

  datatype World = World(local: Local, sent: set<Evidence>, server: Server)

  datatype WorldStep = PepMoves(pepStep: PepStep) | Send | VerifierMoves(serverStep: ServerStep)

  /**
   Under this PEP's name only histories the PEP sent reach the Verifier, in requests whose other fields, which
   nothing signs, may be anything; under other names anything may.
   */
  ghost predicate Deliverable(c: Setup, sent: set<Evidence>, req: CapacityRequest) {
    req.pepID == c.pep.pepID ==> req.history.Some? && req.history.value in sent
  }

  /** A token that was handed out, but for what is not signed: the text of the signature and the order of the scopes. */
  ghost predicate Handed(granted: seq<Token>, tok: Token) {
    exists t :: t in granted && SigningBody(t) == SigningBody(tok)
  }

  lemma HandedFields(a: Token, b: Token)
    requires SigningBody(a) == SigningBody(b)
    ensures b == a.(scope := b.scope, signature := b.signature)
  {
    assert a.(scope := [], signature := "") == b.(scope := [], signature := "");
  }

  ghost function WorldNext(c: Setup, w: World, step: WorldStep): World {
    match step
    case PepMoves(s) =>
      if s.ReceiveStep? && !Handed(w.server.granted, s.tok) then w else w.(local := PepNext(c.pep, w.local, s))
    case Send =>
      if w.local.up && w.local.txn.Idle? && w.local.node.mem.pendingCapacity.Some?
      then w.(sent := w.sent + {w.local.node.mem.pendingCapacity.value})
      else w
    case VerifierMoves(s) =>
      if s.BeginStep? && !Deliverable(c, w.sent, s.req) then w
      else w.(server := ServerNext(c.pep.p, c.ver, w.server, s).0)
  }

  function InitialWorld(c: Setup): World {
    World(Local(false, Node(EmptyPep(c.pep.pepID), None), Idle), {}, FRESH_SERVER)
  }

  ghost function WorldRun(c: Setup, steps: seq<WorldStep>): World {
    if steps == [] then InitialWorld(c)
    else WorldNext(c, WorldRun(c, steps[..|steps| - 1]), steps[|steps| - 1])
  }

  // ---------- what the Verifier has of this PEP ----------

  function VerifierCheckpoint(c: Setup, s: Server): Option<Checkpoint> {
    CheckpointOf(s.memory, c.pep.pepID)
  }

  function AllEvents(run: seq<Evidence>): seq<Event> {
    if run == [] then [] else AllEvents(run[..|run| - 1]) + run[|run| - 1].events
  }

  /** Every event accepted from this PEP so far, in the order of acceptance. */
  function AcceptedLog(c: Setup, s: Server): seq<Event> {
    AllEvents(AcceptedDeltas(ByPep(s.commits, c.pep.pepID)))
  }

  /** Accepted deltas join up to one chain from genesis that the latest checkpoint summarises. */
  lemma {:induction false} AcceptedRunIsChain(p: Primitives, pepID: string, pub: string, run: seq<Evidence>)
    requires AcceptedRun(p, pepID, pub, run)
    ensures Chained(p, pepID, AllEvents(run), "", 0)
    ensures |AllEvents(run)| == BaseIndex(LatestCheckpoint(run))
    ensures LastHash(AllEvents(run), "") == BaseHash(LatestCheckpoint(run))
    decreases |run|
  {
    if run != [] {
      var n := |run| - 1;
      RunPrefix(p, pepID, pub, run, n);
      AcceptedRunIsChain(p, pepID, pub, run[..n]);
      assert ValidEvidence(p, run[n], pepID, pub, LatestCheckpoint(run[..n]));
      JoinChains(p, pepID, AllEvents(run[..n]), run[n].events);
    }
  }

  lemma JoinChains(p: Primitives, pepID: string, a: seq<Event>, b: seq<Event>)
    requires Chained(p, pepID, a, "", 0) && Chained(p, pepID, b, LastHash(a, ""), |a|)
    ensures Chained(p, pepID, a + b, "", 0)
    ensures LastHash(a + b, "") == LastHash(b, LastHash(a, ""))
  {
    forall i | 0 <= i < |a + b| ensures Link(p, pepID, a + b, "", 0, i) {
      if i < |a| {
        assert Link(p, pepID, a, "", 0, i);
      } else {
        assert Link(p, pepID, b, LastHash(a, ""), |a|, i - |a|);
      }
    }
    if b == [] {
      assert a + b == a;
    }
  }

  // ---------- the invariant between the two ----------

  ghost predicate AcceptedMatches(p: Primitives, h: HistoryState, c: Option<Checkpoint>) {
    && h.acceptedHash == BaseCheckpointHash(p, c)
    && h.acceptedIndex == BaseIndex(c)
    && h.acceptedEpoch == BaseEpoch(c)
  }

  function DiskState(c: Setup, n: Node): PepState {
    if n.disk.Some? then n.disk.value.state else EmptyPep(c.pep.pepID)
  }

  /**
   A PEP state, in memory or on disk, against the Verifier's checkpoint and the log behind it.  Either nothing
   is pending and the accepted checkpoint is the Verifier's; or the Verifier has committed the pending one; or
   the pending one is next and its events follow the accepted ones in the log.
   */
  ghost predicate InStep(p: Primitives, st: PepState, pending: Option<Evidence>, vc: Option<Checkpoint>,
                         log: seq<Event>)
  {
    && st.pendingCapacity == pending
    && st.history.lastIndex == |st.history.events|
    && log <= st.history.events
    && |log| == BaseIndex(vc)
    && match pending
       case None => AcceptedMatches(p, st.history, vc)
       case Some(ev) => vc == Some(ev.checkpoint) || Next(p, st.history, ev, vc, log)
  }

  ghost predicate Next(p: Primitives, h: HistoryState, ev: Evidence, vc: Option<Checkpoint>, log: seq<Event>) {
    && AcceptedMatches(p, h, vc)
    && ev.checkpoint.epoch == BaseEpoch(vc) + 1
    && log + ev.events <= h.events
    && ev.checkpoint.lastEventIndex == |log| + |ev.events|
  }

  ghost predicate OneEvidencePerEpoch(sent: set<Evidence>) {
    forall a, b :: a in sent && b in sent && a.checkpoint.epoch == b.checkpoint.epoch ==> a == b
  }

  ghost predicate SentBound(sent: set<Evidence>, pending: Option<Evidence>, vc: Option<Checkpoint>) {
    && (forall a :: a in sent ==> a.checkpoint.epoch <= BaseEpoch(vc) + 1)
    && (forall a :: a in sent && a.checkpoint.epoch == BaseEpoch(vc) + 1 ==> pending == Some(a))
    && (pending.Some? && vc == Some(pending.value.checkpoint) ==> pending.value in sent)
  }

  ghost predicate ServerMatches(c: Setup, s: Server, sent: set<Evidence>) {
    && (forall id :: id in s.flights && s.flights[id].req.pepID == c.pep.pepID ==>
          s.flights[id].req.history.Some? && s.flights[id].req.history.value in sent)
    && (forall tok :: tok in s.granted && tok.pepID == c.pep.pepID ==>
          tok.historyEpoch <= BaseEpoch(VerifierCheckpoint(c, s)))
  }

  ghost predicate WorldInvariant(c: Setup, w: World) {
    var vc, log := VerifierCheckpoint(c, w.server), AcceptedLog(c, w.server);
    var disk := DiskState(c, w.local.node);
    var pending := disk.pendingCapacity;
    && ServerInvariant(c.pep.p, c.ver, w.server)
    && ServerMatches(c, w.server, w.sent)
    && InStep(c.pep.p, disk, pending, vc, log)
    && (w.local.up ==> InStep(c.pep.p, w.local.node.mem, pending, vc, log))
    && OneEvidencePerEpoch(w.sent)
    && SentBound(w.sent, pending, vc)
  }

  // ---------- PEP steps ----------

  /** Appending to the log, and touching the session table or the marker, keeps a state in step. */
  lemma LogKeepsStep(cfg: PepConfig, n: Node, now: int, eventType: string, session: Option<Session>,
                     meta: Option<Metadata>, pending: Option<Evidence>, vc: Option<Checkpoint>, log: seq<Event>)
    requires InStep(cfg.p, n.mem, pending, vc, log)
    ensures InStep(cfg.p, Log(cfg, n, now, eventType, session, meta).mem, pending, vc, log)
  {
    hide HashEvent, EventMetadata;
    var h, h' := n.mem.history, Log(cfg, n, now, eventType, session, meta).mem.history;
    assert h.events <= h'.events;
  }

  /** What a PEP process step may do, as far as the Verifier is concerned. */
  ghost predicate Tame(p: Primitives, c: Setup, n: Node, n': Node, pending: Option<Evidence>, vc: Option<Checkpoint>,
                       log: seq<Event>)
  {
    && InStep(p, n'.mem, pending, vc, log)
    && InStep(p, DiskState(c, n'), pending, vc, log)
  }

  lemma TransactionStepIsTame(c: Setup, l: Local, step: PepStep, pending: Option<Evidence>, vc: Option<Checkpoint>,
                              log: seq<Event>)
    requires l.up && !step.RestartStep? && !step.PrepareStep? && !step.ReceiveStep?
    requires InStep(c.pep.p, l.node.mem, pending, vc, log) && InStep(c.pep.p, DiskState(c, l.node), pending, vc, log)
    ensures PepNext(c.pep, l, step).up
    ensures Tame(c.pep.p, c, l.node, PepNext(c.pep, l, step).node, pending, vc, log)
  {
    hide InStep, Append, MeetsLocalProfile, Lapsed, ObservedMeta, IntentMeta;
    forall n: Node, now, t, s, m | InStep(c.pep.p, n.mem, pending, vc, log)
      ensures InStep(c.pep.p, Log(c.pep, n, now, t, s, m).mem, pending, vc, log)
    {
      LogKeepsStep(c.pep, n, now, t, s, m, pending, vc, log);
    }
    forall st: PepState, sessions, op | InStep(c.pep.p, st, pending, vc, log)
      ensures InStep(c.pep.p, st.(sessions := sessions, pending := op), pending, vc, log)
    {
      StepFrame(c.pep.p, st, sessions, op, pending, vc, log);
    }
  }

  lemma StepFrame(p: Primitives, st: PepState, sessions: map<string, Session>, op: Option<PendingOperation>,
                           pending: Option<Evidence>, vc: Option<Checkpoint>, log: seq<Event>)
    requires InStep(p, st, pending, vc, log)
    ensures InStep(p, st.(sessions := sessions, pending := op), pending, vc, log)
  {
  }

  lemma RestartIsTame(c: Setup, l: Local, now: int, pending: Option<Evidence>, vc: Option<Checkpoint>, log: seq<Event>)
    requires InStep(c.pep.p, DiskState(c, l.node), pending, vc, log)
    ensures var l' := PepNext(c.pep, l, RestartStep(now));
      && DiskState(c, l'.node) == DiskState(c, l.node)
      && (l'.up ==> InStep(c.pep.p, l'.node.mem, pending, vc, log))
  {
    hide InStep, Append, ChainInvariant;
    if Load(c.pep, l.node.disk).Success? {
      var mem := Load(c.pep, l.node.disk).value;
      LogKeepsStep(c.pep, Node(mem, l.node.disk), now, "pep_start", None, Some(StartMeta(c.pep)), pending, vc, log);
    }
  }

  /** New evidence is built on the Verifier's checkpoint and becomes pending in memory and on disk at once. */
  lemma PrepareIsTame(c: Setup, n: Node, now: int, now': int, writable: bool, pending: Option<Evidence>,
                      vc: Option<Checkpoint>, log: seq<Event>)
    requires InStep(c.pep.p, n.mem, pending, vc, log) && InStep(c.pep.p, DiskState(c, n), pending, vc, log)
    ensures var n' := PrepareCapacity(c.pep, n, now, now', writable).0;
      var pending' := n'.mem.pendingCapacity;
      && Tame(c.pep.p, c, n, n', pending', vc, log)
      && (pending' == pending
          || (pending.None? && pending'.Some? && pending'.value.checkpoint.epoch == BaseEpoch(vc) + 1))
  {
    if pending.None? {
      var meta := Some(map["scope" := JoinComma(c.pep.scope)]);
      var asked := Log(c.pep, n, now, "capacity_requested", None, meta);
      hide NewEvent, HashCheckpoint, JoinComma;
      LogKeepsStep(c.pep, n, now, "capacity_requested", None, meta, pending, vc, log);
      var built := Build(c.pep.p, asked.mem.history, c.pep.privateKey, now');
      if built.Success? {
        var h := asked.mem.history;
        assert h.events == log + h.events[|log|..];
        assert Next(c.pep.p, h, built.value, vc, log);
      }
    }
  }

  /** A token for the pending evidence can only have been issued after the Verifier committed it. */
  lemma ReceiveIsTame(c: Setup, n: Node, tok: Token, now: int, now': int, writable: bool, pending: Option<Evidence>,
                      vc: Option<Checkpoint>, log: seq<Event>)
    requires InStep(c.pep.p, n.mem, pending, vc, log) && InStep(c.pep.p, DiskState(c, n), pending, vc, log)
    requires tok.pepID == c.pep.pepID ==> tok.historyEpoch <= BaseEpoch(vc)
    ensures var n' := AcceptToken(c.pep, n, tok, now, now', writable).0;
      var pending' := n'.mem.pendingCapacity;
      && Tame(c.pep.p, c, n, n', pending', vc, log)
      && (pending' == pending || (pending'.None? && pending.Some? && vc == Some(pending.value.checkpoint)))
  {
    hide NewEvent, HashCheckpoint, VerifyCapacityToken, AcceptedMeta;
    if pending.Some? && TokenValid(c.pep, tok, pending.value, now) {
      assert vc == Some(pending.value.checkpoint);
      var h := Mark(c.pep.p, n.mem.history, pending.value.checkpoint).value;
      var marked := n.(mem := n.mem.(history := h));
      var logged := Log(c.pep, marked, now', "capacity_accepted", None, Some(AcceptedMeta(c.pep, pending.value)));
      assert InStep(c.pep.p, marked.mem, pending, vc, log);
      LogKeepsStep(c.pep, marked, now', "capacity_accepted", None, Some(AcceptedMeta(c.pep, pending.value)), pending,
                   vc, log);
    }
  }

  lemma HandedInStep(c: Setup, s: Server, sent: set<Evidence>, tok: Token)
    requires ServerMatches(c, s, sent) && Handed(s.granted, tok)
    ensures tok.pepID == c.pep.pepID ==> tok.historyEpoch <= BaseEpoch(VerifierCheckpoint(c, s))
  {
    var t :| t in s.granted && SigningBody(t) == SigningBody(tok);
    HandedFields(t, tok);
  }

  lemma PepStepKeepsInvariant(c: Setup, w: World, step: PepStep)
    requires WorldInvariant(c, w)
    ensures WorldInvariant(c, WorldNext(c, w, PepMoves(step)))
  {
    hide Next, AcceptedMatches, ServerInvariant, PrepareCapacity, AcceptToken, Load, AcceptedLog, OneEvidencePerEpoch,
      Handed;
    var vc, log := VerifierCheckpoint(c, w.server), AcceptedLog(c, w.server);
    var pending := DiskState(c, w.local.node).pendingCapacity;
    if step.RestartStep? {
      RestartIsTame(c, w.local, step.now, pending, vc, log);
    } else if w.local.up {
      if step.PrepareStep? {
        PrepareIsTame(c, w.local.node, step.now, step.now', step.writable, pending, vc, log);
      } else if step.ReceiveStep? {
        if Handed(w.server.granted, step.tok) {
          HandedInStep(c, w.server, w.sent, step.tok);
          ReceiveIsTame(c, w.local.node, step.tok, step.now, step.now', step.writable, pending, vc, log);
        }
      } else {
        TransactionStepIsTame(c, w.local, step, pending, vc, log);
      }
    }
  }

  lemma SendKeepsInvariant(c: Setup, w: World)
    requires WorldInvariant(c, w)
    ensures WorldInvariant(c, WorldNext(c, w, Send))
  {
    hide ServerInvariant, AcceptedLog, AcceptedMatches;
  }

  // ---------- Verifier steps ----------

  lemma LogOfCommits(c: Setup, commits: seq<CommitRecord>, r: CommitRecord)
    requires r.req.history.Some?
    ensures AllEvents(AcceptedDeltas(ByPep(commits + [r], c.pep.pepID))) ==
            AllEvents(AcceptedDeltas(ByPep(commits, c.pep.pepID)))
            + if r.req.pepID == c.pep.pepID then r.req.history.value.events else []
  {
    var pep := c.pep.pepID;
    var mine := ByPep(commits, pep);
    assert (commits + [r])[..|commits|] == commits;
    if r.req.pepID == pep {
      assert (mine + [r])[..|mine|] == mine;
      var deltas := AcceptedDeltas(mine);
      assert (deltas + [r.req.history.value])[..|deltas|] == deltas;
    } else {
      assert mine + [] == mine;
    }
  }

  /** Nothing the Verifier holds of this PEP changed, or it committed the next evidence the PEP had sent. */
  ghost predicate ServerEffect(c: Setup, s: Server, s': Server, sent: set<Evidence>, committed: Option<Evidence>) {
    match committed
    case None => VerifierCheckpoint(c, s') == VerifierCheckpoint(c, s) && AcceptedLog(c, s') == AcceptedLog(c, s)
    case Some(ev) =>
      && ev in sent
      && ev.checkpoint.epoch == BaseEpoch(VerifierCheckpoint(c, s)) + 1
      && VerifierCheckpoint(c, s') == Some(ev.checkpoint)
      && AcceptedLog(c, s') == AcceptedLog(c, s) + ev.events
  }

  lemma BeginEffect(c: Setup, s: Server, sent: set<Evidence>, id: nat, req: CapacityRequest)
    requires ServerInvariant(c.pep.p, c.ver, s) && ServerMatches(c, s, sent) && Deliverable(c, sent, req)
    ensures var s' := ServerNext(c.pep.p, c.ver, s, BeginStep(id, req)).0;
      ServerEffect(c, s, s', sent, None) && ServerMatches(c, s', sent)
  {
    hide EntryOf, Sequential, SequentialAnswers, FlightsCurrent, WellScreened, Screen, IsRetry, AllEvents,
      AcceptedDeltas, ByPep, TokensBound;
    if Screen(c.ver, req).Success? {
      ScreenKeepsHistory(c.ver, req);
      StoredTokenEpoch(c, s.memory, Screen(c.ver, req).value.pepID);
    }
  }

  lemma StoredTokenEpoch(c: Setup, st: VerifierState, pep: string)
    requires TokensBound(c.pep.p, st)
    ensures CheckpointOf(st, pep).Some? && TokenOf(st, pep).pepID == c.pep.pepID ==>
      TokenOf(st, pep).historyEpoch == BaseEpoch(CheckpointOf(st, c.pep.pepID))
  {
    if pep in st.checkpoints {
      assert Binds(c.pep.p, st.lastTokens[pep], st.checkpoints[pep], pep);
    }
  }

  lemma FinishEffect(c: Setup, s: Server, sent: set<Evidence>, id: nat, now: int, saved: bool)
    returns (committed: Option<Evidence>)
    requires ServerInvariant(c.pep.p, c.ver, s) && ServerMatches(c, s, sent)
    ensures var s' := ServerNext(c.pep.p, c.ver, s, FinishStep(id, now, saved)).0;
      ServerEffect(c, s, s', sent, committed) && ServerMatches(c, s', sent)
  {
    hide EntryOf, Sequential, SequentialAnswers, FlightsCurrent, WellScreened, Finish, IsRetry, AcceptedDeltas, ByPep,
      AllEvents;
    committed := None;
    if id in s.flights && s.flights[id].req.history.Some? {
      var f := s.flights[id];
      if Finish(c.pep.p, c.ver, s.memory, f, now, saved).committed {
        committed := CommitEffect(c, s, sent, id, now, saved);
      } else {
        UncommittedFinish(c.pep.p, c.ver, s.memory, f, now, saved);
      }
    }
  }

  lemma CommitEffect(c: Setup, s: Server, sent: set<Evidence>, id: nat, now: int, saved: bool)
    returns (committed: Option<Evidence>)
    requires ServerMatches(c, s, sent)
    requires id in s.flights && s.flights[id].req.history.Some?
    requires Finish(c.pep.p, c.ver, s.memory, s.flights[id], now, saved).committed
    ensures var s' := ServerNext(c.pep.p, c.ver, s, FinishStep(id, now, saved)).0;
      ServerEffect(c, s, s', sent, committed) && ServerMatches(c, s', sent)
  {
    hide Finish, ValidEvidence, Appraise, AcceptedDeltas, ByPep, AllEvents;
    var f := s.flights[id];
    var v := CommittedFinish(c.pep.p, c.ver, s.memory, f, now, saved);
    CommitAdvancesEpoch(c.pep.p, c.ver, s.memory, f, now, saved);
    LogOfCommits(c, s.commits, CommitRecord(f.req, now, v.tok));
    committed := if f.req.pepID == c.pep.pepID then f.req.history else None;
  }

  /** The commit the PEP is waiting for keeps every state in step. */
  lemma CommitKeepsStep(p: Primitives, st: PepState, ev: Evidence, vc: Option<Checkpoint>, log: seq<Event>)
    requires InStep(p, st, Some(ev), vc, log) && ev.checkpoint.epoch == BaseEpoch(vc) + 1
    ensures InStep(p, st, Some(ev), Some(ev.checkpoint), log + ev.events)
  {
  }

  lemma VerifierStepKeepsInvariant(c: Setup, w: World, step: ServerStep)
    requires WorldInvariant(c, w)
    ensures WorldInvariant(c, WorldNext(c, w, VerifierMoves(step)))
  {
    hide InStep, ServerInvariant, ServerMatches, AcceptedLog, OneEvidencePerEpoch, ServerNext;
    if !(step.BeginStep? && !Deliverable(c, w.sent, step.req)) {
      var s := w.server;
      ServerStepKeepsInvariant(c.pep.p, c.ver, s, step);
      var committed: Option<Evidence> := None;
      match step {
        case BeginStep(id, req) => BeginEffect(c, s, w.sent, id, req);
        case FinishStep(id, now, saved) => committed := FinishEffect(c, s, w.sent, id, now, saved);
        case Restart => RestartEffect(c, s, w.sent);
      }
      if committed.Some? {
        var vc, log := VerifierCheckpoint(c, s), AcceptedLog(c, s);
        CommitKeepsStep(c.pep.p, DiskState(c, w.local.node), committed.value, vc, log);
        if w.local.up {
          CommitKeepsStep(c.pep.p, w.local.node.mem, committed.value, vc, log);
        }
      }
    }
  }

  lemma RestartEffect(c: Setup, s: Server, sent: set<Evidence>)
    requires ServerInvariant(c.pep.p, c.ver, s) && ServerMatches(c, s, sent)
    ensures var s' := ServerNext(c.pep.p, c.ver, s, Restart).0;
      ServerEffect(c, s, s', sent, None) && ServerMatches(c, s', sent)
  {
    hide EntryOf, Sequential, SequentialAnswers, FlightsCurrent, WellScreened, AllEvents, AcceptedDeltas, ByPep,
      TokensBound;
  }

  // ---------- every run ----------

  lemma InitialInvariant(c: Setup)
    ensures WorldInvariant(c, InitialWorld(c))
  {
    hide ServerInvariant;
    FreshServerInvariant(c.pep.p, c.ver);
  }

  lemma {:induction false} RunKeepsInvariant(c: Setup, steps: seq<WorldStep>)
    ensures WorldInvariant(c, WorldRun(c, steps))
  {
    hide WorldInvariant, WorldNext;
    if steps == [] {
      InitialInvariant(c);
    } else {
      var before := steps[..|steps| - 1];
      RunKeepsInvariant(c, before);
      match steps[|steps| - 1]
      case PepMoves(s) => PepStepKeepsInvariant(c, WorldRun(c, before), s);
      case Send => SendKeepsInvariant(c, WorldRun(c, before));
      case VerifierMoves(s) => VerifierStepKeepsInvariant(c, WorldRun(c, before), s);
    }
  }

  /** A state's accepted checkpoint is the Verifier's, or its pending evidence carries it. */
  ghost predicate Agrees(c: Setup, st: PepState, vc: Option<Checkpoint>) {
    AcceptedMatches(c.pep.p, st.history, vc)
      || (st.pendingCapacity.Some? && vc == Some(st.pendingCapacity.value.checkpoint))
  }

  /**
   In every run the Verifier's checkpoint is the PEP's last accepted one or that of its pending evidence, in
   memory and on disk, and no two different evidences of one epoch are ever sent.
   */
  lemma AuthorityAgreement(c: Setup, steps: seq<WorldStep>)
    ensures var w := WorldRun(c, steps);
      var vc := VerifierCheckpoint(c, w.server);
      && (w.local.up ==> Agrees(c, w.local.node.mem, vc))
      && Agrees(c, DiskState(c, w.local.node), vc)
      && OneEvidencePerEpoch(w.sent)
  {
    hide ServerInvariant, ServerMatches, AcceptedLog;
    RunKeepsInvariant(c, steps);
  }

  /**
   Conservation: in every run the deltas the Verifier accepted, joined up, are exactly the first
   LastEventIndex events of the PEP's log, in memory and on disk, and the Verifier's active sessions are
   those this prefix leaves open, each with the plan hash of its intent.
   */
  lemma EventsAreConserved(c: Setup, steps: seq<WorldStep>)
    ensures var w := WorldRun(c, steps);
      var vc, log := VerifierCheckpoint(c, w.server), AcceptedLog(c, w.server);
      var mem, disk := w.local.node.mem.history.events, DiskState(c, w.local.node).history.events;
      && BaseIndex(vc) <= |disk| && log == disk[..BaseIndex(vc)]
      && (w.local.up ==> BaseIndex(vc) <= |mem| && log == mem[..BaseIndex(vc)])
      && ActiveOf(w.server.memory, c.pep.pepID) == ReadLog(log).open
  {
    hide ServerMatches, ServerInvariant, OneEvidencePerEpoch, SentBound, AcceptedLog, ReadLog;
    RunKeepsInvariant(c, steps);
    VerifierOpenSessions(c, WorldRun(c, steps).server);
  }

  lemma VerifierOpenSessions(c: Setup, s: Server)
    requires ServerInvariant(c.pep.p, c.ver, s)
    ensures ReadLog(AcceptedLog(c, s)).open == ActiveOf(s.memory, c.pep.pepID)
  {
    hide TokensBound, Sequential, SequentialAnswers, FlightsCurrent, FinalActive, ReadLog, AcceptedRun, WellScreened;
    var mine := ByPep(s.commits, c.pep.pepID);
    assert EntryOf(c.pep.p, c.ver, s.memory, s.commits, c.pep.pepID);
    AppraisedOpenSessions(Appraisals(c.pep.p, c.ver, mine));
    SameDeltas(c.pep.p, c.ver, mine);
  }

  lemma {:induction false} SameDeltas(p: Primitives, cfg: VerifierConfig, commits: seq<CommitRecord>)
    ensures DeltaEvents(Appraisals(p, cfg, commits)) == AllEvents(AcceptedDeltas(commits))
    decreases |commits|
  {
    if commits != [] {
      var n := |commits| - 1;
      SameDeltas(p, cfg, commits[..n]);
      if commits[n].req.history.Some? {
        var as', ds := Appraisals(p, cfg, commits[..n]), AcceptedDeltas(commits[..n]);
        var a := Appraisal(ContextOf(p, cfg, commits[n].req), commits[n].req.history.value);
        assert (as' + [a])[..|as'|] == as';
        assert (ds + [a.ev])[..|ds|] == ds;
      } else {
        assert Appraisals(p, cfg, commits[..n]) + [] == Appraisals(p, cfg, commits[..n]);
        assert AcceptedDeltas(commits[..n]) + [] == AcceptedDeltas(commits[..n]);
      }
    }
  }

  lemma {:induction false} AppraisedOpenSessions(run: seq<Appraisal>)
    requires FinalActive(run).Some?
    ensures ReadLog(DeltaEvents(run)).open == FinalActive(run).value
    decreases |run|
  {
    hide Replay, Reads, AtCheckpoint, ReadStep;
    if run != [] {
      var n := |run| - 1;
      AppraisedOpenSessions(run[..n]);
      var start := PolicyState(FinalActive(run[..n]).value, map[]);
      ReadsAtRest(ReadLog(DeltaEvents(run[..n])), start.active);
      ReplayKeepsOpen(run[n].ctx, start, DeltaEvents(run[..n]), run[n].ev.events);
      OpenIsActive(ReadLog(DeltaEvents(run)), Replay(run[n].ctx, start, run[n].ev.events).value);
    }
  }

  lemma OpenIsActive(r: Reading, st: PolicyState)
    requires Reads(r, st)
    ensures r.open == st.active
  {
    SameLookups(r.open, st.active);
  }
}
