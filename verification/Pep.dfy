/**
 The PEP's durable state and the transactions that change it: pep/state.go, the activation and cleanup
 transactions of pep/main.go, and ensureCapacityToken of pep/attestation.go.  Clock readings, the outcome of
 writing the state file and what the kernel observer reports are parameters.
 */
module Pep {
  import opened Wrappers
  import opened Protocol
  import opened Text
  import opened Attest
  import opened Tokens
  import opened History
  import opened Policy

  datatype PepConfig = PepConfig(
    p: Primitives,
    pepID: string,
    publicKey: string,
    privateKey: string,
    measurement: string,
    policyHash: string,
    scope: seq<string>,
    maxSALifetime: int,
    verifierPubKey: string,
    requiredObserver: string,
    xfrmMode: string)

  datatype PendingOperation = PendingOperation(operation: string, session: Session)

  /** persistentPEPState without its version: what a snapshot holds, and what memory holds. */
  datatype PepState = PepState(
    history: HistoryState,
    sessions: map<string, Session>,
    pending: Option<PendingOperation>,
    pendingCapacity: Option<Evidence>)

  datatype PepFile = PepFile(version: int, state: PepState)

  datatype Node = Node(mem: PepState, disk: Option<PepFile>)

  function EmptyPep(pepID: string): PepState {
    PepState(EmptyHistory(pepID), map[], None, None)
  }

  // ---------- persistence ----------

  function Write(n: Node, writable: bool): Node {
    if writable then n.(disk := Some(PepFile(1, n.mem))) else n
  }

  /** Setting or clearing the transaction marker is undone in memory when the write fails. */
  function SetPending(n: Node, op: Option<PendingOperation>, writable: bool): Node {
    if writable then Write(n.(mem := n.mem.(pending := op)), true) else n
  }

  function SetPendingCapacity(n: Node, ev: Option<Evidence>, writable: bool): Node {
    if writable then Write(n.(mem := n.mem.(pendingCapacity := ev)), true) else n
  }

  datatype LoadError = UnsupportedVersion | InterruptedTransaction(operation: string) | BadHistory

  /** loadPEPState: a snapshot with a transaction marker, or a broken history, is refused. */
  ghost function Load(cfg: PepConfig, disk: Option<PepFile>): Result<PepState, LoadError> {
    match disk
    case None => Success(EmptyPep(cfg.pepID))
    case Some(f) =>
      if f.version != 1 then Failure(UnsupportedVersion)
      else if f.state.pending.Some? then Failure(InterruptedTransaction(f.state.pending.value.operation))
      else if f.state.history.pepID != cfg.pepID || !ChainInvariant(cfg.p, f.state.history) then Failure(BadHistory)
      else Success(f.state)
  }

  // ---------- the event log of the transactions ----------

  function Log(cfg: PepConfig, n: Node, now: int, eventType: string, session: Option<Session>,
               meta: Option<Metadata>): Node
  {
    n.(mem := n.mem.(history := Append(cfg.p, n.mem.history, now, eventType, session, meta)))
  }

  function PlanDigest(cfg: PepConfig, s: Session): string {
    cfg.p.digest(PlanDoc(s.xfrm))
  }

  function IntentMeta(cfg: PepConfig, s: Session): Metadata {
    map["xfrm_mode" := cfg.xfrmMode, "xfrm_plan_hash" := PlanDigest(cfg, s)]
  }

  /** Whatever the observer adds, the mode and the plan hash are the PEP's own. */
  function ObservedMeta(cfg: PepConfig, s: Session, observed: Metadata): Metadata {
    observed["xfrm_mode" := cfg.xfrmMode]["xfrm_plan_hash" := PlanDigest(cfg, s)]
  }

  function Entry(meta: Metadata, key: string): string {
    if key in meta then meta[key] else ""
  }

  /** observationSuccessful. */
  predicate ObservationSuccessful(meta: Metadata, outcome: string) {
    Entry(meta, outcome) == "true" || (Entry(meta, outcome) == "assumed" && Entry(meta, "xfrm_mode") != "apply")
  }

  /** observationMeetsLocalProfile, attestation being enabled. */
  predicate MeetsLocalProfile(cfg: PepConfig, meta: Metadata, outcome: string) {
    var required, source := cfg.requiredObserver, ToLower(Entry(meta, "observer_source"));
    && ObservationSuccessful(meta, outcome)
    && if Entry(meta, "xfrm_mode") != "apply" then Entry(meta, outcome) == "assumed" && required == "dry-run"
       else if required == "posthoc" then source == "posthoc" || source == "posthoc+ebpf"
       else if required == "hybrid" then source == "posthoc+ebpf" && Entry(meta, "ebpf_matched") == "true"
       else required == "ebpf" && source == "ebpf" && Entry(meta, "ebpf_matched") == "true"
  }

  // ---------- the steps between two writes of the state file ----------

  function BeginApply(cfg: PepConfig, n: Node, s: Session, now: int, writable: bool): Node {
    if !writable then n
    else
      Log(cfg, SetPending(n, Some(PendingOperation("xfrm_apply", s)), true), now, APPLY_INTENT, Some(s),
          Some(IntentMeta(cfg, s)))
  }

  function ObserveApply(cfg: PepConfig, n: Node, s: Session, now: int, observed: Metadata): Node {
    Log(cfg, n, now, APPLY_OBSERVED, Some(s), Some(ObservedMeta(cfg, s, observed)))
  }

  function FinishApply(cfg: PepConfig, n: Node, s: Session, now: int, writable: bool): Node {
    var stored := n.(mem := n.mem.(sessions := n.mem.sessions[s.pepInSPI := s]));
    SetPending(Log(cfg, stored, now, ACTIVATED, Some(s), Some(map["attested" := "true"])), None, writable)
  }

  function BeginDelete(cfg: PepConfig, n: Node, s: Session, now: int, now': int, writable: bool): Node {
    if !writable then n
    else
      var marked := SetPending(n, Some(PendingOperation("xfrm_delete", s)), true);
      var expired := Log(cfg, marked, now, EXPIRED, Some(s), Some(map["expires_at" := s.expiresAt]));
      Log(cfg, expired, now', DELETE_INTENT, Some(s), Some(IntentMeta(cfg, s)))
  }

  function ObserveDelete(cfg: PepConfig, n: Node, s: Session, now: int, observed: Metadata): Node {
    Log(cfg, n, now, DELETE_OBSERVED, Some(s), Some(ObservedMeta(cfg, s, observed)))
  }

  function FinishDelete(n: Node, s: Session, writable: bool): Node {
    SetPending(n.(mem := n.mem.(sessions := n.mem.sessions - {s.pepInSPI})), None, writable)
  }

  // ---------- capacity requests ----------

  function RequestFor(cfg: PepConfig, ev: Evidence): CapacityRequest {
    CapacityRequest(cfg.pepID, cfg.publicKey, cfg.measurement, cfg.policyHash, cfg.scope, cfg.maxSALifetime, Some(ev))
  }

  function JoinComma(parts: seq<string>): string {
    if parts == [] then "" else if |parts| == 1 then parts[0] else parts[0] + "," + JoinComma(parts[1..])
  }

  /** The evidence to send: the pending one, or a new one once it is durable. */
  function PrepareCapacity(cfg: PepConfig, n: Node, now: int, now': int, writable: bool): (Node, Option<Evidence>) {
    if n.mem.pendingCapacity.Some? then (n, n.mem.pendingCapacity)
    else
      var asked := Log(cfg, n, now, "capacity_requested", None, Some(map["scope" := JoinComma(cfg.scope)]));
      match Build(cfg.p, asked.mem.history, cfg.privateKey, now')
      case Failure(_) => (asked, None)
      case Success(ev) => (SetPendingCapacity(asked, Some(ev), writable), if writable then Some(ev) else None)
  }

  /** validateCapacityToken. */
  predicate TokenValid(cfg: PepConfig, tok: Token, ev: Evidence, now: int) {
    && VerifyCapacityToken(cfg.p, tok, cfg.verifierPubKey, now).Pass?
    && tok.checkpointHash == HashCheckpoint(cfg.p, ev.checkpoint)
    && tok.historyEpoch == ev.checkpoint.epoch
    && tok.pepID == cfg.pepID && tok.pepSigningPubKey == cfg.publicKey
    && tok.measurement == cfg.measurement && tok.policyHash == cfg.policyHash
    && 0 < tok.maxSALifetime <= cfg.maxSALifetime
    && SameStrings(tok.scope, cfg.scope)
    && ToLower(tok.observerProfile) == cfg.requiredObserver
  }

  function AcceptedMeta(cfg: PepConfig, ev: Evidence): Metadata {
    map["checkpoint_hash" := HashCheckpoint(cfg.p, ev.checkpoint), "history_epoch" := Decimal(ev.checkpoint.epoch)]
  }

  /** The Verifier's answer to the pending evidence; the pending evidence survives a failed write. */
  function AcceptToken(cfg: PepConfig, n: Node, tok: Token, now: int, now': int, writable: bool): (Node, bool) {
    if n.mem.pendingCapacity.None? then (n, false)
    else
      var ev := n.mem.pendingCapacity.value;
      if !TokenValid(cfg, tok, ev, now) then (n, false)
      else
        match Mark(cfg.p, n.mem.history, ev.checkpoint)
        case Failure(_) => (n, false)
        case Success(h) =>
          var logged := Log(cfg, n.(mem := n.mem.(history := h)), now', "capacity_accepted", None,
                            Some(AcceptedMeta(cfg, ev)));
          (SetPendingCapacity(logged, None, writable), writable)
  }

  /** After a token was accepted the exchange is closed, in memory and on disk, at the token's checkpoint. */
  lemma AcceptedTokenSettles(cfg: PepConfig, n: Node, tok: Token, now: int, now': int, writable: bool)
    ensures var (n', ok) := AcceptToken(cfg, n, tok, now, now', writable);
      ok ==>
      && n'.mem.pendingCapacity.None? && n'.disk == Some(PepFile(1, n'.mem))
      && n'.mem.history.acceptedHash == tok.checkpointHash && n'.mem.history.acceptedEpoch == tok.historyEpoch
      && VerifyCapacityToken(cfg.p, tok, cfg.verifierPubKey, now).Pass?
  {
  }

  // ---------- the process ----------

  /** The outcome of one apply transaction's foreign calls. */
  datatype ApplyEnv = ApplyEnv(
    markWritable: bool, intentAt: int, installed: bool, observedAt: int, observed: Metadata,
    activatedAt: int, clearWritable: bool)

  datatype DeleteEnv = DeleteEnv(
    markWritable: bool, expiredAt: int, intentAt: int, removed: bool, observedAt: int, observed: Metadata,
    clearWritable: bool)

  function ApplyTransaction(cfg: PepConfig, n: Node, s: Session, env: ApplyEnv): (Node, bool) {
    var begun := BeginApply(cfg, n, s, env.intentAt, env.markWritable);
    if !env.markWritable || !env.installed then (begun, false)
    else
      var seen := ObserveApply(cfg, begun, s, env.observedAt, env.observed);
      if !MeetsLocalProfile(cfg, ObservedMeta(cfg, s, env.observed), "applied") then (seen, false)
      else (FinishApply(cfg, seen, s, env.activatedAt, env.clearWritable), env.clearWritable)
  }

  function DeleteTransaction(cfg: PepConfig, n: Node, s: Session, env: DeleteEnv): (Node, bool) {
    var begun := BeginDelete(cfg, n, s, env.expiredAt, env.intentAt, env.markWritable);
    if !env.markWritable || !env.removed then (begun, false)
    else
      var seen := ObserveDelete(cfg, begun, s, env.observedAt, env.observed);
      if !MeetsLocalProfile(cfg, ObservedMeta(cfg, s, env.observed), "deleted") then (seen, false)
      else (FinishDelete(seen, s, env.clearWritable), env.clearWritable)
  }

  /** The delete transactions of a cleanup, one after the other until one fails. */
  function DeleteAll(cfg: PepConfig, n: Node, order: seq<Session>, env: Session -> DeleteEnv): (Node, bool)
    decreases |order|
  {
    if order == [] then (n, true)
    else
      var (before, ok) := DeleteAll(cfg, n, order[..|order| - 1], env);
      if !ok then (before, false) else DeleteTransaction(cfg, before, order[|order| - 1], env(order[|order| - 1]))
  }

  /** The sessions a cleanup at `now` has to delete; one with an unreadable expiry is left alone. */
  predicate Lapsed(cfg: PepConfig, s: Session, now: int) {
    var exp := cfg.p.parseTime(s.expiresAt);
    exp.Some? && now >= exp.value
  }

  ghost predicate KeyedBySPI(sessions: map<string, Session>) {
    forall id :: id in sessions ==> sessions[id].pepInSPI == id
  }

  ghost predicate NoRepeats(order: seq<Session>) {
    forall i, j :: 0 <= i < j < |order| ==> order[i] != order[j]
  }

  class EnforcementPoint {
    const cfg: PepConfig
    const history: EnforcementHistory
    var sessions: map<string, Session>
    var pendingPEP: Option<PendingOperation>
    var pendingCapacity: Option<Evidence>
    var disk: Option<PepFile>
    var token: Option<Token>
    var healthy: bool

    ghost predicate Valid()
      reads this
    {
      history.p == cfg.p && history.pepID == cfg.pepID
    }

    function State(): PepState
      reads this, history
    {
      PepState(history.State(), sessions, pendingPEP, pendingCapacity)
    }

    function Here(): Node
      reads this, history
    {
      Node(State(), disk)
    }

    constructor (cfg: PepConfig, disk: Option<PepFile>)
      ensures Valid() && this.cfg == cfg && fresh(history) && Here() == Node(EmptyPep(cfg.pepID), disk)
    {
      this.cfg := cfg;
      this.disk := disk;
      history := new EnforcementHistory(cfg.p, cfg.pepID);
      sessions, pendingPEP, pendingCapacity := map[], None, None;
      token, healthy := None, true;
    }

    /** Into a fresh process: adopts exactly the snapshots Load accepts. */
    method LoadPEPState() returns (r: Outcome<LoadError>)
      requires Valid() && State() == EmptyPep(cfg.pepID)
      modifies this, history
      ensures Valid() && disk == old(disk)
      ensures r.Pass? <==> Load(cfg, disk).Success?
      ensures r.Pass? ==> State() == Load(cfg, disk).value
      ensures r.Fail? ==> r.error == Load(cfg, disk).error
      ensures token == old(token) && healthy == old(healthy)
    {
      if disk.None? {
        return Pass;
      }
      var persisted := disk.value;
      if persisted.version != 1 {
        return Fail(UnsupportedVersion);
      }
      if persisted.state.pending.Some? {
        return Fail(InterruptedTransaction(persisted.state.pending.value.operation));
      }
      pendingCapacity := persisted.state.pendingCapacity;
      var restored := history.Restore(persisted.state.history);
      if restored.Fail? {
        return Fail(BadHistory);
      }
      sessions := persisted.state.sessions;
      r := Pass;
    }

    method PersistPEPState(writable: bool) returns (ok: bool)
      requires Valid()
      modifies this
      ensures Valid() && ok == writable && Here() == Write(old(Here()), writable)
      ensures token == old(token) && healthy == old(healthy)
    {
      if !writable {
        return false;
      }
      var snapshot := history.Snapshot();
      disk := Some(PepFile(1, PepState(snapshot, sessions, pendingPEP, pendingCapacity)));
      ok := true;
    }

    method SetPendingPEPOperation(op: Option<PendingOperation>, writable: bool) returns (ok: bool)
      requires Valid()
      modifies this
      ensures Valid() && ok == writable && Here() == SetPending(old(Here()), op, writable)
      ensures token == old(token) && healthy == old(healthy)
    {
      var previous := pendingPEP;
      pendingPEP := op;
      ok := PersistPEPState(writable);
      if !ok {
        pendingPEP := previous;
      }
    }

    method SetPendingCapacityEvidence(ev: Option<Evidence>, writable: bool) returns (ok: bool)
      requires Valid()
      modifies this
      ensures Valid() && ok == writable && Here() == SetPendingCapacity(old(Here()), ev, writable)
      ensures token == old(token) && healthy == old(healthy)
    {
      var previous := pendingCapacity;
      pendingCapacity := ev;
      ok := PersistPEPState(writable);
      if !ok {
        pendingCapacity := previous;
      }
    }

    method HistoryAppend(now: int, eventType: string, session: Option<Session>, meta: Metadata)
      requires Valid()
      modifies history
      ensures Valid() && Here() == Log(cfg, old(Here()), now, eventType, session, Some(meta))
    {
      var e := history.AppendEvent(now, eventType, session, Some(meta));
    }

    /** The transaction part of activateHandler. */
    method Activate(s: Session, env: ApplyEnv) returns (ok: bool)
      requires Valid()
      modifies this, history
      ensures Valid() && (Here(), ok) == ApplyTransaction(cfg, old(Here()), s, env)
      ensures token == old(token) && healthy == old(healthy)
    {
      hide Append, IntentMeta, ObservedMeta, MeetsLocalProfile;
      var marked := SetPendingPEPOperation(Some(PendingOperation("xfrm_apply", s)), env.markWritable);
      if !marked {
        return false;
      }
      HistoryAppend(env.intentAt, APPLY_INTENT, Some(s), IntentMeta(cfg, s));
      if !env.installed {
        return false;
      }
      var meta := ObservedMeta(cfg, s, env.observed);
      HistoryAppend(env.observedAt, APPLY_OBSERVED, Some(s), meta);
      if !MeetsLocalProfile(cfg, meta, "applied") {
        return false;
      }
      sessions := sessions[s.pepInSPI := s];
      HistoryAppend(env.activatedAt, ACTIVATED, Some(s), map["attested" := "true"]);
      ok := SetPendingPEPOperation(None, env.clearWritable);
    }

    method Delete(s: Session, env: DeleteEnv) returns (ok: bool)
      requires Valid()
      modifies this, history
      ensures Valid() && (Here(), ok) == DeleteTransaction(cfg, old(Here()), s, env)
      ensures token == old(token) && healthy == old(healthy)
    {
      hide Append, IntentMeta, ObservedMeta, MeetsLocalProfile;
      var marked := SetPendingPEPOperation(Some(PendingOperation("xfrm_delete", s)), env.markWritable);
      if !marked {
        return false;
      }
      HistoryAppend(env.expiredAt, EXPIRED, Some(s), map["expires_at" := s.expiresAt]);
      HistoryAppend(env.intentAt, DELETE_INTENT, Some(s), IntentMeta(cfg, s));
      if !env.removed {
        return false;
      }
      var meta := ObservedMeta(cfg, s, env.observed);
      HistoryAppend(env.observedAt, DELETE_OBSERVED, Some(s), meta);
      if !MeetsLocalProfile(cfg, meta, "deleted") {
        return false;
      }
      sessions := sessions - {s.pepInSPI};
      ok := SetPendingPEPOperation(None, env.clearWritable);
    }

    /** The collection pass of the cleanup, over the table in any order. */
    method CollectExpired(now: int) returns (expired: seq<Session>)
      ensures forall s :: s in expired <==> s in sessions.Values && Lapsed(cfg, s, now)
      ensures KeyedBySPI(sessions) ==> NoRepeats(expired)
    {
      expired := [];
      var left := sessions.Keys;
      while left != {}
        invariant left <= sessions.Keys
        invariant forall s :: s in expired ==> s in sessions.Values && Lapsed(cfg, s, now)
        invariant forall k :: k in sessions.Keys - left && Lapsed(cfg, sessions[k], now) ==> sessions[k] in expired
        invariant KeyedBySPI(sessions) ==> NoRepeats(expired) && forall s :: s in expired ==> s.pepInSPI !in left
        decreases left
      {
        var k :| k in left;
        if Lapsed(cfg, sessions[k], now) {
          expired := expired + [sessions[k]];
        }
        left := left - {k};
      }
    }

    /** cleanupExpiredSessionsUnderHistoryLock. */
    method CleanupExpired(now: int, env: Session -> DeleteEnv) returns (ok: bool, ghost order: seq<Session>)
      requires Valid()
      modifies this, history
      ensures Valid()
      ensures forall s :: s in order ==> s in old(sessions).Values && Lapsed(cfg, s, now)
      ensures KeyedBySPI(old(sessions)) ==> NoRepeats(order)
      ensures ok ==> forall s :: s in old(sessions).Values && Lapsed(cfg, s, now) ==> s in order
      ensures (Here(), ok) == DeleteAll(cfg, old(Here()), order, env)
      ensures token == old(token) && healthy == old(healthy)
    {
      hide DeleteTransaction, Lapsed, Here;
      var expired := CollectExpired(now);
      ghost var start := Here();
      order := [];
      for i := 0 to |expired|
        invariant Valid() && token == old(token) && healthy == old(healthy)
        invariant order == expired[..i]
        invariant (Here(), true) == DeleteAll(cfg, start, order, env)
      {
        order := order + [expired[i]];
        assert order[..|order| - 1] == expired[..i];
        assert order == expired[..i + 1];
        ok := Delete(expired[i], env(expired[i]));
        if !ok {
          return;
        }
      }
      assert order == expired;
      ok := true;
    }

    /** ensureCapacityToken up to the request it sends. */
    method PrepareCapacityRequest(now: int, now': int, writable: bool) returns (r: Option<CapacityRequest>)
      requires Valid()
      modifies this, history
      ensures Valid()
      ensures var (after, ev) := PrepareCapacity(cfg, old(Here()), now, now', writable);
        Here() == after && r == if ev.Some? then Some(RequestFor(cfg, ev.value)) else None
      ensures token == old(token) && healthy == old(healthy)
    {
      if pendingCapacity.Some? {
        return Some(RequestFor(cfg, pendingCapacity.value));
      }
      HistoryAppend(now, "capacity_requested", None, map["scope" := JoinComma(cfg.scope)]);
      var built := history.BuildEvidence(cfg.privateKey, now');
      if built.Failure? {
        return None;
      }
      var ok := SetPendingCapacityEvidence(Some(built.value), writable);
      if !ok {
        return None;
      }
      r := Some(RequestFor(cfg, built.value));
    }

    /** ensureCapacityToken from the Verifier's answer on. */
    method AcceptCapacityToken(tok: Token, now: int, now': int, writable: bool) returns (ok: bool)
      requires Valid()
      modifies this, history
      ensures Valid() && (Here(), ok) == AcceptToken(cfg, old(Here()), tok, now, now', writable)
      ensures token == if ok then Some(tok) else old(token)
      ensures healthy == old(healthy)
    {
      if pendingCapacity.None? {
        return false;
      }
      var ev := pendingCapacity.value;
      var valid := ValidateCapacityToken(cfg, tok, ev, now);
      if !valid {
        return false;
      }
      var marked := history.MarkCheckpointAccepted(ev.checkpoint);
      if marked.Fail? {
        return false;
      }
      HistoryAppend(now', "capacity_accepted", None, AcceptedMeta(cfg, ev));
      ok := SetPendingCapacityEvidence(None, writable);
      if ok {
        token := Some(tok);
      }
    }

    /**
     ensureCapacityToken, the exchange with the Verifier being `env.ask`.  A token is handed out only if it is
     the cached one and still fresh, or if it was valid for the evidence sent, whose checkpoint is then the
     accepted one in memory and on disk, with nothing left pending.
     */
    method EnsureCapacityToken(env: CapacityEnv) returns (r: Option<Token>, ghost order: seq<Session>)
      requires Valid()
      modifies this, history
      ensures Valid()
      ensures var expiry := if old(token).Some? then cfg.p.parseTime(old(token).value.expiresAt) else None;
        if !old(healthy) then r.None? && Here() == old(Here()) && token == old(token) && !healthy
        else if expiry.Some? && env.now + 20 * SECOND < expiry.value
        then r == old(token) && Here() == old(Here()) && token == old(token) && healthy
        else
          && (Here(), r, healthy) == Exchange(cfg, old(Here()), order, env)
          && token == (if r.Some? then r else old(token))
          && (forall s :: s in order ==> s in old(sessions).Values && Lapsed(cfg, s, env.now))
          && (KeyedBySPI(old(sessions)) ==> NoRepeats(order))
          && (healthy ==> forall s :: s in old(sessions).Values && Lapsed(cfg, s, env.now) ==> s in order)
          && (r.Some? ==> Exchanged(r.value, env))
          && (healthy <==> DeleteAll(cfg, old(Here()), order, env.deletes).1) && (!healthy ==> r.None?)
    {
      hide DeleteAll, PrepareCapacity, AcceptToken, VerifyCapacityToken, Lapsed;
      order := [];
      if !healthy {
        return None, order;
      }
      if token.Some? {
        var exp := cfg.p.parseTime(token.value.expiresAt);
        if exp.Some? && exp.value - env.now > RENEWAL_MARGIN {
          return token, order;
        }
      }
      var cleaned;
      cleaned, order := CleanupExpired(env.now, env.deletes);
      ghost var after := Here();
      if !cleaned {
        healthy := false;
        assert Here() == after;
        return None, order;
      }
      var req := PrepareCapacityRequest(env.requestedAt, env.builtAt, env.pendingWritable);
      if req.None? {
        assert PrepareCapacity(cfg, after, env.requestedAt, env.builtAt, env.pendingWritable) == (Here(), None);
        return None, order;
      }
      var tok := env.ask(req.value);
      if tok.None? {
        return None, order;
      }
      ghost var sent := Here();
      var ok := AcceptCapacityToken(tok.value, env.validatedAt, env.acceptedAt, env.acceptedWritable);
      AcceptedTokenSettles(cfg, sent, tok.value, env.validatedAt, env.acceptedAt, env.acceptedWritable);
      r := if ok then tok else None;
    }

    /** The state after an exchange that produced `tok`. */
    ghost predicate Exchanged(tok: Token, env: CapacityEnv)
      reads this, history
    {
      && pendingCapacity.None?
      && disk == Some(PepFile(1, State()))
      && history.lastAcceptedCheckpointHash == tok.checkpointHash
      && history.lastAcceptedEpoch == tok.historyEpoch
      && VerifyCapacityToken(cfg.p, tok, cfg.verifierPubKey, env.validatedAt).Pass?
    }
  }

  datatype CapacityEnv = CapacityEnv(
    now: int, deletes: Session -> DeleteEnv, requestedAt: int, builtAt: int, pendingWritable: bool,
    ask: CapacityRequest -> Option<Token>, validatedAt: int, acceptedAt: int, acceptedWritable: bool)

  /** The cleanup and the exchange with the Verifier; and whether the PEP is still healthy. */
  function Exchange(cfg: PepConfig, n: Node, order: seq<Session>, env: CapacityEnv): (Node, Option<Token>, bool) {
    var (cleaned, ok) := DeleteAll(cfg, n, order, env.deletes);
    if !ok then (cleaned, None, false)
    else
      var (after, tok) := AskVerifier(cfg, cleaned, env);
      (after, tok, true)
  }

  /** The request, the Verifier's answer and its acceptance. */
  function AskVerifier(cfg: PepConfig, n: Node, env: CapacityEnv): (Node, Option<Token>) {
    var (asked, ev) := PrepareCapacity(cfg, n, env.requestedAt, env.builtAt, env.pendingWritable);
    if ev.None? then (asked, None)
    else
      var tok := env.ask(RequestFor(cfg, ev.value));
      if tok.None? then (asked, None)
      else
        var (after, accepted) :=
          AcceptToken(cfg, asked, tok.value, env.validatedAt, env.acceptedAt, env.acceptedWritable);
        (after, if accepted then tok else None)
  }

  const RENEWAL_MARGIN := 20 * SECOND

  method ValidateCapacityToken(cfg: PepConfig, tok: Token, ev: Evidence, now: int) returns (ok: bool)
    ensures ok <==> TokenValid(cfg, tok, ev, now)
    ensures ok <==>
      && VerifyCapacityToken(cfg.p, tok, cfg.verifierPubKey, now).Pass?
      && tok.checkpointHash == cfg.p.digest(CheckpointDoc(ev.checkpoint))
      && tok.historyEpoch == ev.checkpoint.epoch
      && tok.pepID == cfg.pepID && tok.pepSigningPubKey == cfg.publicKey
      && tok.measurement == cfg.measurement && tok.policyHash == cfg.policyHash
      && 0 < tok.maxSALifetime && tok.maxSALifetime <= cfg.maxSALifetime
      && multiset(Trimmed(tok.scope)) == multiset(Trimmed(cfg.scope))
      && ToLower(tok.observerProfile) == cfg.requiredObserver
  {
    if VerifyCapacityToken(cfg.p, tok, cfg.verifierPubKey, now).Fail? {
      return false;
    }
    if tok.checkpointHash != HashCheckpoint(cfg.p, ev.checkpoint) || tok.historyEpoch != ev.checkpoint.epoch {
      return false;
    }
    if tok.pepID != cfg.pepID || tok.pepSigningPubKey != cfg.publicKey {
      return false;
    }
    if tok.measurement != cfg.measurement || tok.policyHash != cfg.policyHash {
      return false;
    }
    if tok.maxSALifetime <= 0 || tok.maxSALifetime > cfg.maxSALifetime {
      return false;
    }
    var sameScope := SameStringsUnordered(tok.scope, cfg.scope);
    return sameScope && ToLower(tok.observerProfile) == cfg.requiredObserver;
  }
}
