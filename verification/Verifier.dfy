/**
 capacityHandler of verifier/main.go: request screening, replay of an accepted response, appraisal outside
 the lock, and the compare-and-swap that makes a checkpoint, its active sessions and its token durable.
 */
module Verifier {
  import opened Wrappers
  import opened Protocol
  import opened Text
  import opened Attest
  import opened Tokens
  import opened Policy

  datatype VerifierConfig = VerifierConfig(
    verifierID: string,
    publicKey: string,
    privateKey: string,
    expectedMeasurement: string,
    expectedPolicyHash: string,
    tokenTTLSeconds: int,
    allowedScope: seq<string>,
    maxSALifetime: int,
    requiredObserver: string,
    enrolled: map<string, string>)

  datatype VerifierState = VerifierState(
    checkpoints: map<string, Checkpoint>,
    activeStates: map<string, ActiveMap>,
    lastTokens: map<string, Token>)

  const EMPTY_STATE := VerifierState(map[], map[], map[])
  const EMPTY_TOKEN := Token(0, "", "", "", "", "", "", [], "", "", 0, "", "", 0, "")

  function CheckpointOf(st: VerifierState, pep: string): Option<Checkpoint> {
    Lookup(st.checkpoints, pep)
  }

  function ActiveOf(st: VerifierState, pep: string): ActiveMap {
    if pep in st.activeStates then st.activeStates[pep] else map[]
  }

  function TokenOf(st: VerifierState, pep: string): Token {
    if pep in st.lastTokens then st.lastTokens[pep] else EMPTY_TOKEN
  }

  datatype Status = BadRequest | Forbidden | Conflict | ServerError

  datatype Response = Granted(tok: Token) | Denied(status: Status)

  // ---------- screening ----------

  predicate ScopeSubset(requested: seq<string>, allowed: seq<string>) {
    Contains(allowed, "*") || forall i :: 0 <= i < |requested| ==> requested[i] == "" || Contains(allowed, requested[i])
  }

  /** The checks before the history is looked at; the requested lifetime is capped on the way. */
  function Screen(cfg: VerifierConfig, req: CapacityRequest): Result<CapacityRequest, Status> {
    if req.pepID == "" || req.pepSigningPubKey == "" || req.measurement == "" || req.policyHash == ""
      || req.maxSALifetime <= 0
    then Failure(BadRequest)
    else if req.pepID !in cfg.enrolled || cfg.enrolled[req.pepID] == "" then Failure(Forbidden)
    else if req.pepSigningPubKey != cfg.enrolled[req.pepID] then Failure(Forbidden)
    else if cfg.expectedMeasurement != "" && req.measurement != cfg.expectedMeasurement then Failure(Forbidden)
    else if cfg.expectedPolicyHash != "" && req.policyHash != cfg.expectedPolicyHash then Failure(Forbidden)
    else if req.scope == [] then Failure(BadRequest)
    else if !ScopeSubset(req.scope, cfg.allowedScope) then Failure(Forbidden)
    else if req.history.None? then Failure(BadRequest)
    else if cfg.maxSALifetime > 0 && req.maxSALifetime > cfg.maxSALifetime
    then Success(req.(maxSALifetime := cfg.maxSALifetime))
    else Success(req)
  }

  /** Screening a screened request changes nothing more. */
  lemma ScreenIdempotent(cfg: VerifierConfig, req: CapacityRequest)
    requires Screen(cfg, req).Success?
    ensures Screen(cfg, Screen(cfg, req).value) == Screen(cfg, req)
  {
  }

  predicate Screened(cfg: VerifierConfig, req: CapacityRequest) {
    Screen(cfg, req) == Success(req) && req.history.Some?
  }

  // ---------- replay of an accepted response ----------

  /** acceptedCheckpointRetry, for a screened request. */
  predicate IsRetry(p: Primitives, cfg: VerifierConfig, req: CapacityRequest, current: Checkpoint, tok: Token)
    requires req.history.Some?
  {
    var c := req.history.value.checkpoint;
    && c == current
    && tok.signature != ""
    && VerifyCheckpoint(p, c, req.pepSigningPubKey)
    && tok.checkpointHash == HashCheckpoint(p, c)
    && tok.pepID == c.pepID
    && tok.pepSigningPubKey == req.pepSigningPubKey
    && p.parseTime(tok.issuedAt).Some?
    && VerifyCapacityToken(p, tok, cfg.publicKey, p.parseTime(tok.issuedAt).value).Pass?
    && tok.verifierID == cfg.verifierID
    && tok.measurement == req.measurement
    && tok.policyHash == req.policyHash
    && tok.maxSALifetime == req.maxSALifetime
    && tok.observerProfile == cfg.requiredObserver
    && SameStrings(tok.scope, req.scope)
  }

  method AcceptedCheckpointRetry(p: Primitives, cfg: VerifierConfig, req: CapacityRequest, current: Checkpoint,
                                 tok: Token)
    returns (ok: bool)
    requires req.history.Some?
    ensures ok <==> IsRetry(p, cfg, req, current, tok)
  {
    var c := req.history.value.checkpoint;
    if c != current || tok.signature == "" {
      return false;
    }
    if !VerifyCheckpoint(p, c, req.pepSigningPubKey) {
      return false;
    }
    if tok.checkpointHash != HashCheckpoint(p, c) || tok.pepID != c.pepID
      || tok.pepSigningPubKey != req.pepSigningPubKey {
      return false;
    }
    var issuedAt := p.parseTime(tok.issuedAt);
    if issuedAt.None? || VerifyCapacityToken(p, tok, cfg.publicKey, issuedAt.value).Fail? {
      return false;
    }
    var sameScope := SameStringsUnordered(tok.scope, req.scope);
    return
      && tok.verifierID == cfg.verifierID && tok.measurement == req.measurement && tok.policyHash == req.policyHash
      && tok.maxSALifetime == req.maxSALifetime && tok.observerProfile == cfg.requiredObserver && sameScope;
  }

  // ---------- the two critical sections and what lies between ----------

  /** What the first critical section hands on. */
  datatype Flight = Flight(req: CapacityRequest, previous: Option<Checkpoint>, active: ActiveMap)

  datatype Begun = Answered(response: Response) | Flying(flight: Flight)

  function Begin(p: Primitives, cfg: VerifierConfig, st: VerifierState, req: CapacityRequest): Begun {
    match Screen(cfg, req)
    case Failure(status) => Answered(Denied(status))
    case Success(req) =>
      var previous := CheckpointOf(st, req.pepID);
      if previous.Some? && IsRetry(p, cfg, req, previous.value, TokenOf(st, req.pepID))
      then Answered(Granted(TokenOf(st, req.pepID)))
      else Flying(Flight(req, previous, ActiveOf(st, req.pepID)))
  }

  function ContextOf(p: Primitives, cfg: VerifierConfig, req: CapacityRequest): PolicyContext {
    PolicyContext(p, req.scope, req.maxSALifetime, cfg.requiredObserver)
  }

  function NewToken(p: Primitives, cfg: VerifierConfig, req: CapacityRequest, now: int): Token
    requires req.history.Some?
  {
    var c := req.history.value.checkpoint;
    Token(1, TOKEN_TYPE, cfg.verifierID, req.pepID, req.pepSigningPubKey, req.measurement, req.policyHash, req.scope,
          p.formatTime(now), p.formatTime(now + cfg.tokenTTLSeconds * SECOND), req.maxSALifetime,
          cfg.requiredObserver, HashCheckpoint(p, c), c.epoch, "")
  }

  datatype Verdict = Verdict(tok: Token, active: ActiveMap)

  /** Appraisal against the copies taken by the first critical section, and the token it earns. */
  ghost function Judge(p: Primitives, cfg: VerifierConfig, f: Flight, now: int): Result<Verdict, Status>
    requires f.req.history.Some?
  {
    var ev := f.req.history.value;
    var after := Appraise(ContextOf(p, cfg, f.req), ev, f.active);
    if !ValidEvidence(p, ev, f.req.pepID, f.req.pepSigningPubKey, f.previous) || after.None? then Failure(Forbidden)
    else
      match SignToken(p, NewToken(p, cfg, f.req, now), cfg.privateKey)
      case None => Failure(ServerError)
      case Some(tok) => Success(Verdict(tok, after.value))
  }

  function Commit(st: VerifierState, req: CapacityRequest, v: Verdict): VerifierState
    requires req.history.Some?
  {
    VerifierState(st.checkpoints[req.pepID := req.history.value.checkpoint],
                  st.activeStates[req.pepID := v.active],
                  st.lastTokens[req.pepID := v.tok])
  }

  datatype Finished = Finished(st: VerifierState, response: Response, committed: bool)

  /** The second critical section; `saved` is the outcome of writing the state file. */
  ghost function Finish(p: Primitives, cfg: VerifierConfig, st: VerifierState, f: Flight, now: int,
                        saved: bool): Finished
    requires f.req.history.Some?
  {
    match Judge(p, cfg, f, now)
    case Failure(status) => Finished(st, Denied(status), false)
    case Success(v) =>
      var current := CheckpointOf(st, f.req.pepID);
      if current != f.previous then
        if current.Some? && IsRetry(p, cfg, f.req, current.value, TokenOf(st, f.req.pepID))
        then Finished(st, Granted(TokenOf(st, f.req.pepID)), false)
        else Finished(st, Denied(Conflict), false)
      else if !saved then Finished(st, Denied(ServerError), false)
      else Finished(Commit(st, f.req, v), Granted(v.tok), true)
  }

  /** The handler with nothing in between its two critical sections. */
  ghost function Atomic(p: Primitives, cfg: VerifierConfig, st: VerifierState, req: CapacityRequest, now: int,
                        saved: bool): Finished
  {
    match Begin(p, cfg, st, req)
    case Answered(r) => Finished(st, r, false)
    case Flying(f) => Finish(p, cfg, st, f, now, saved)
  }

  class CapacityServer {
    const p: Primitives
    const cfg: VerifierConfig
    const persistent: bool
    var checkpoints: map<string, Checkpoint>
    var activeStates: map<string, ActiveMap>
    var lastTokens: map<string, Token>
    var disk: Option<VerifierState>

    function State(): VerifierState
      reads this
    {
      VerifierState(checkpoints, activeStates, lastTokens)
    }

    /** With a state file, memory never runs ahead of it. */
    ghost predicate Durable()
      reads this
    {
      persistent ==> State() == if disk.Some? then disk.value else EMPTY_STATE
    }

    constructor (p: Primitives, cfg: VerifierConfig, persistent: bool, disk: Option<VerifierState>)
      ensures this.p == p && this.cfg == cfg && this.persistent == persistent && this.disk == disk
      ensures Durable()
      ensures State() == if persistent && disk.Some? then disk.value else EMPTY_STATE
    {
      this.p, this.cfg, this.persistent, this.disk := p, cfg, persistent, disk;
      checkpoints, activeStates, lastTokens := map[], map[], map[];
      if persistent && disk.Some? {
        checkpoints, activeStates, lastTokens := disk.value.checkpoints, disk.value.activeStates, disk.value.lastTokens;
      }
    }

    method BeginCapacity(request: CapacityRequest) returns (b: Begun)
      ensures b == Begin(p, cfg, State(), request)
    {
      var screened := Screen(cfg, request);
      if screened.Failure? {
        return Answered(Denied(screened.error));
      }
      var req := screened.value;
      var previous := None;
      if req.pepID in checkpoints {
        previous := Some(checkpoints[req.pepID]);
        var tok := if req.pepID in lastTokens then lastTokens[req.pepID] else EMPTY_TOKEN;
        var retry := AcceptedCheckpointRetry(p, cfg, req, checkpoints[req.pepID], tok);
        if retry {
          return Answered(Granted(tok));
        }
      }
      var activeCopy: ActiveMap := if req.pepID in activeStates then activeStates[req.pepID] else map[];
      b := Flying(Flight(req, previous, activeCopy));
    }

    method FinishCapacity(f: Flight, now: int, writable: bool) returns (r: Response)
      requires f.req.history.Some? && Durable()
      modifies this
      ensures var done := Finish(p, cfg, old(State()), f, now, writable || !persistent);
        && State() == done.st
        && r == done.response
        && disk == if done.committed && persistent then Some(done.st) else old(disk)
      ensures Durable()
    {
      var ev := f.req.history.value;
      var checked := VerifyHistoryEvidence(p, ev, f.req.pepID, f.req.pepSigningPubKey, f.previous);
      if checked.Failure? {
        return Denied(Forbidden);
      }
      var appraised := VerifyEnforcementPolicy(ContextOf(p, cfg, f.req), ev, f.active);
      if appraised.Failure? {
        return Denied(Forbidden);
      }
      var tok := Token(1, TOKEN_TYPE, cfg.verifierID, f.req.pepID, f.req.pepSigningPubKey, f.req.measurement,
                       f.req.policyHash, f.req.scope, p.formatTime(now),
                       p.formatTime(now + cfg.tokenTTLSeconds * SECOND), f.req.maxSALifetime,
                       cfg.requiredObserver, checked.value, ev.checkpoint.epoch, "");
      var signed := SignToken(p, tok, cfg.privateKey);
      if signed.None? {
        return Denied(ServerError);
      }
      var current := if f.req.pepID in checkpoints then Some(checkpoints[f.req.pepID]) else None;
      if current != f.previous {
        if current.Some? {
          var last := if f.req.pepID in lastTokens then lastTokens[f.req.pepID] else EMPTY_TOKEN;
          var retry := AcceptedCheckpointRetry(p, cfg, f.req, current.value, last);
          if retry {
            return Granted(last);
          }
        }
        return Denied(Conflict);
      }
      var next := VerifierState(checkpoints[f.req.pepID := ev.checkpoint],
                                activeStates[f.req.pepID := appraised.value],
                                lastTokens[f.req.pepID := signed.value]);
      if persistent {
        if !writable {
          return Denied(ServerError);
        }
        disk := Some(next);
      }
      checkpoints, activeStates, lastTokens := next.checkpoints, next.activeStates, next.lastTokens;
      r := Granted(signed.value);
    }

    /** One request handled with nobody else in between. */
    method HandleCapacity(request: CapacityRequest, now: int, writable: bool) returns (r: Response)
      requires Durable()
      modifies this
      ensures var done := Atomic(p, cfg, old(State()), request, now, writable || !persistent);
        State() == done.st && r == done.response
      ensures Durable()
    {
      var b := BeginCapacity(request);
      if b.Answered? {
        return b.response;
      }
      r := FinishCapacity(b.flight, now, writable);
    }
  }

  // ---------- tokens and checkpoints stay together ----------

  /** The stored token of every PEP is the one issued for its stored checkpoint. */
  ghost predicate TokensBound(p: Primitives, st: VerifierState) {
    && st.checkpoints.Keys == st.lastTokens.Keys == st.activeStates.Keys
    && forall pep :: pep in st.checkpoints ==> Binds(p, st.lastTokens[pep], st.checkpoints[pep], pep)
  }

  ghost predicate Binds(p: Primitives, tok: Token, c: Checkpoint, pep: string) {
    tok.checkpointHash == HashCheckpoint(p, c) && tok.historyEpoch == c.epoch && tok.pepID == c.pepID == pep
  }

  /** Everything a committing run of the second critical section has established. */
  lemma CommittedFinish(p: Primitives, cfg: VerifierConfig, st: VerifierState, f: Flight, now: int, saved: bool)
    returns (v: Verdict)
    requires f.req.history.Some? && Finish(p, cfg, st, f, now, saved).committed
    ensures CheckpointOf(st, f.req.pepID) == f.previous
    ensures ValidEvidence(p, f.req.history.value, f.req.pepID, f.req.pepSigningPubKey, f.previous)
    ensures Appraise(ContextOf(p, cfg, f.req), f.req.history.value, f.active) == Some(v.active)
    ensures SignToken(p, NewToken(p, cfg, f.req, now), cfg.privateKey) == Some(v.tok)
    ensures Finish(p, cfg, st, f, now, saved) == Finished(Commit(st, f.req, v), Granted(v.tok), true)
  {
    hide ValidEvidence, Appraise, IsRetry;
    v := Judge(p, cfg, f, now).value;
  }

  lemma UncommittedFinish(p: Primitives, cfg: VerifierConfig, st: VerifierState, f: Flight, now: int, saved: bool)
    requires f.req.history.Some? && !Finish(p, cfg, st, f, now, saved).committed
    ensures Finish(p, cfg, st, f, now, saved).st == st
    ensures Finish(p, cfg, st, f, now, saved).response.Granted? ==>
      var current := CheckpointOf(st, f.req.pepID);
      && current.Some? && current != f.previous
      && IsRetry(p, cfg, f.req, current.value, TokenOf(st, f.req.pepID))
      && Finish(p, cfg, st, f, now, saved).response.tok == TokenOf(st, f.req.pepID)
  {
    hide ValidEvidence, Appraise, IsRetry;
  }

  lemma FinishKeepsBinding(p: Primitives, cfg: VerifierConfig, st: VerifierState, f: Flight, now: int, saved: bool)
    requires f.req.history.Some? && TokensBound(p, st)
    ensures TokensBound(p, Finish(p, cfg, st, f, now, saved).st)
  {
    hide Appraise, IsRetry, Finish, Judge, Chained;
    if Finish(p, cfg, st, f, now, saved).committed {
      var v := CommittedFinish(p, cfg, st, f, now, saved);
      var pepID := f.req.pepID;
      var st' := Commit(st, f.req, v);
      assert Binds(p, v.tok, f.req.history.value.checkpoint, pepID);
      forall pep | pep in st'.checkpoints ensures Binds(p, st'.lastTokens[pep], st'.checkpoints[pep], pep) {
        assert pep != pepID ==> pep in st.checkpoints;
      }
    } else {
      UncommittedFinish(p, cfg, st, f, now, saved);
    }
  }

  // ---------- resending an accepted request ----------

  lemma FloorShift(t: int, seconds: int)
    ensures FloorSecond(t + seconds * SECOND) == FloorSecond(t) + seconds * SECOND
  {
    assert (t + seconds * SECOND) % SECOND == t % SECOND;
  }

  /** A token checked at its own issue time is good exactly if it was issued for a positive time. */
  lemma FreshTokenVerifies(p: Primitives, cfg: VerifierConfig, req: CapacityRequest, now: int, tok: Token)
    requires Rfc3339(p) && KeyPair(p, cfg.publicKey, cfg.privateKey) && req.history.Some?
    requires SignToken(p, NewToken(p, cfg, req, now), cfg.privateKey) == Some(tok)
    ensures tok.signature != "" && p.parseTime(tok.issuedAt).Some?
    ensures VerifyCapacityToken(p, tok, cfg.publicKey, p.parseTime(tok.issuedAt).value).Pass?
            <==> cfg.tokenTTLSeconds > 0
  {
    FloorShift(now, cfg.tokenTTLSeconds);
    var unsigned := NewToken(p, cfg, req, now);
    assert SigningBody(tok) == SigningBody(unsigned);
    assert p.parseTime(tok.issuedAt) == Some(FloorSecond(now));
    assert p.parseTime(tok.expiresAt) == Some(FloorSecond(now) + cfg.tokenTTLSeconds * SECOND);
  }

  /** `later` has moved on from `st` without touching this PEP. */
  ghost predicate SameEntries(st: VerifierState, later: VerifierState, pep: string) {
    && CheckpointOf(st, pep) == CheckpointOf(later, pep)
    && TokenOf(st, pep) == TokenOf(later, pep)
  }

  /**
   After a request was accepted and committed, sending it again, before another commit for that PEP, changes
   nothing, and returns the stored token exactly if tokens are issued for a positive time.
   */
  lemma ResendReplays(p: Primitives, cfg: VerifierConfig, st: VerifierState, req: CapacityRequest, now: int,
                      later: VerifierState, now': int, saved: bool)
    requires Rfc3339(p) && KeyPair(p, cfg.publicKey, cfg.privateKey)
    requires Atomic(p, cfg, st, req, now, true).committed
    requires SameEntries(Atomic(p, cfg, st, req, now, true).st, later, req.pepID)
    ensures Atomic(p, cfg, later, req, now', saved).st == later
    ensures Atomic(p, cfg, later, req, now', saved).response == Atomic(p, cfg, st, req, now, true).response
            <==> cfg.tokenTTLSeconds > 0
  {
    hide Appraise, Finish, Judge, Chained, SameStrings, VerifyCapacityToken;
    var f := Begin(p, cfg, st, req).flight;
    var v := CommittedFinish(p, cfg, st, f, now, true);
    var screened := f.req;
    FreshTokenVerifies(p, cfg, screened, now, v.tok);
    SameScope(v.tok.scope);
    var c := screened.history.value.checkpoint;
    assert CheckpointOf(later, req.pepID) == Some(c) && TokenOf(later, req.pepID) == v.tok;
    if cfg.tokenTTLSeconds > 0 {
      assert IsRetry(p, cfg, screened, c, v.tok);
    } else {
      assert !IsRetry(p, cfg, screened, c, v.tok);
      SecondEpochRefused(p, cfg, later, Begin(p, cfg, later, req).flight, now', saved);
    }
  }

  lemma SameScope(scope: seq<string>)
    ensures SameStrings(scope, scope)
  {
  }

  /** A delta whose checkpoint is already the stored one fails the chain check: its epoch is not the next. */
  lemma SecondEpochRefused(p: Primitives, cfg: VerifierConfig, st: VerifierState, f: Flight, now: int, saved: bool)
    requires f.req.history.Some? && f.previous == Some(f.req.history.value.checkpoint)
    ensures Finish(p, cfg, st, f, now, saved) == Finished(st, Denied(Forbidden), false)
  {
    hide Appraise, Chained, IsRetry;
  }
}
