/** What the tokens a Verifier ever hands out are worth: over every run, whoever asked. */
module Grants {
  import opened Wrappers
  import opened Protocol
  import opened Attest
  import opened Tokens
  import opened Policy
  import opened Verifier
  import opened VerifierRuns

  /** The token says of an enrolled PEP no more than the Verifier's configuration allows, and is signed. */
  ghost predicate Authorised(p: Primitives, cfg: VerifierConfig, tok: Token) {
    && tok.pepID in cfg.enrolled && cfg.enrolled[tok.pepID] == tok.pepSigningPubKey != ""
    && (cfg.expectedMeasurement != "" ==> tok.measurement == cfg.expectedMeasurement)
    && (cfg.expectedPolicyHash != "" ==> tok.policyHash == cfg.expectedPolicyHash)
    && tok.scope != [] && ScopeSubset(tok.scope, cfg.allowedScope)
    && 0 < tok.maxSALifetime && (cfg.maxSALifetime > 0 ==> tok.maxSALifetime <= cfg.maxSALifetime)
    && tok.verifierID == cfg.verifierID && tok.observerProfile == cfg.requiredObserver
    && p.verify(cfg.publicKey, SigningBody(tok), tok.signature)
  }

  /** It was issued for an accepted checkpoint of that PEP. */
  ghost predicate IssuedFor(p: Primitives, cfg: VerifierConfig, commits: seq<CommitRecord>, tok: Token) {
    exists i :: 0 <= i < |commits| && IsTokenOf(p, cfg, commits[i], tok)
  }

  /** It says what was asked for, for the checkpoint committed, and is valid for the configured time from then on. */
  ghost predicate IsTokenOf(p: Primitives, cfg: VerifierConfig, r: CommitRecord, tok: Token) {
    && r.tok == tok && r.req.history.Some? && r.req.pepID == tok.pepID
    && tok.checkpointHash == p.digest(CheckpointDoc(r.req.history.value.checkpoint))
    && tok.historyEpoch == r.req.history.value.checkpoint.epoch
    && tok.version == 1 && tok.tokenType == "cryptna-pep-capacity-v1"
    && tok.pepSigningPubKey == r.req.pepSigningPubKey
    && tok.measurement == r.req.measurement && tok.policyHash == r.req.policyHash && tok.scope == r.req.scope
    && tok.maxSALifetime == r.req.maxSALifetime
    && ValidFrom(p, tok, r.now, cfg.tokenTTLSeconds)
  }

  /** Issued in the second of this clock reading, to expire so many seconds later. */
  ghost predicate ValidFrom(p: Primitives, tok: Token, now: int, seconds: int) {
    Rfc3339(p) ==>
      && p.parseTime(tok.issuedAt) == Some(now - now % SECOND)
      && p.parseTime(tok.expiresAt) == Some(now - now % SECOND + seconds * SECOND)
  }

  ghost predicate Sound(p: Primitives, cfg: VerifierConfig, commits: seq<CommitRecord>, tok: Token) {
    IssuedFor(p, cfg, commits, tok) && Authorised(p, cfg, tok)
  }

  ghost predicate GrantInvariant(p: Primitives, cfg: VerifierConfig, s: Server) {
    && ServerInvariant(p, cfg, s)
    && (forall tok :: tok in s.granted ==> Sound(p, cfg, s.commits, tok))
    && (forall pep :: pep in s.memory.lastTokens ==> Sound(p, cfg, s.commits, s.memory.lastTokens[pep]))
  }

  /** Screening establishes, and signing seals, what the token says. */
  lemma NewTokenIsAuthorised(p: Primitives, cfg: VerifierConfig, req: CapacityRequest, now: int, tok: Token)
    requires KeyPair(p, cfg.publicKey, cfg.privateKey) && Screened(cfg, req)
    requires SignToken(p, NewToken(p, cfg, req, now), cfg.privateKey) == Some(tok)
    ensures Authorised(p, cfg, tok) && IsTokenOf(p, cfg, CommitRecord(req, now, tok), tok)
  {
    FloorShift(now, cfg.tokenTTLSeconds);
    assert SigningBody(tok) == SigningBody(NewToken(p, cfg, req, now));
  }

  lemma StillSound(p: Primitives, cfg: VerifierConfig, commits: seq<CommitRecord>, r: CommitRecord, tok: Token)
    requires Sound(p, cfg, commits, tok)
    ensures Sound(p, cfg, commits + [r], tok)
  {
    hide Authorised, IsTokenOf;
    var i :| 0 <= i < |commits| && IsTokenOf(p, cfg, commits[i], tok);
    assert (commits + [r])[i] == commits[i];
  }

  /** A retry is answered with the stored token, which is there. */
  lemma RetryTokenStored(p: Primitives, cfg: VerifierConfig, st: VerifierState, req: CapacityRequest,
                         current: Checkpoint)
    requires req.history.Some? && IsRetry(p, cfg, req, current, TokenOf(st, req.pepID))
    ensures req.pepID in st.lastTokens && TokenOf(st, req.pepID) == st.lastTokens[req.pepID]
  {
  }

  lemma BeginKeepsGrants(p: Primitives, cfg: VerifierConfig, s: Server, id: nat, req: CapacityRequest)
    requires GrantInvariant(p, cfg, s)
    ensures GrantInvariant(p, cfg, ServerNext(p, cfg, s, BeginStep(id, req)).0)
  {
    hide ServerInvariant, Sound, Screen, IsRetry;
    ServerStepKeepsInvariant(p, cfg, s, BeginStep(id, req));
    if id !in s.flights && Screen(cfg, req).Success? {
      ScreenKeepsHistory(cfg, req);
      var screened := Screen(cfg, req).value;
      var previous := CheckpointOf(s.memory, screened.pepID);
      if previous.Some? && IsRetry(p, cfg, screened, previous.value, TokenOf(s.memory, screened.pepID)) {
        RetryTokenStored(p, cfg, s.memory, screened, previous.value);
      }
    }
  }

  lemma FinishKeepsGrants(p: Primitives, cfg: VerifierConfig, s: Server, id: nat, now: int, saved: bool)
    requires KeyPair(p, cfg.publicKey, cfg.privateKey) && GrantInvariant(p, cfg, s)
    ensures GrantInvariant(p, cfg, ServerNext(p, cfg, s, FinishStep(id, now, saved)).0)
  {
    hide ServerInvariant, Sound, IsRetry, Finish;
    ServerStepKeepsInvariant(p, cfg, s, FinishStep(id, now, saved));
    if id in s.flights && s.flights[id].req.history.Some? {
      var f := s.flights[id];
      if Finish(p, cfg, s.memory, f, now, saved).committed {
        CommitKeepsGrants(p, cfg, s, id, now, saved);
      } else {
        UncommittedFinish(p, cfg, s.memory, f, now, saved);
        if Finish(p, cfg, s.memory, f, now, saved).response.Granted? {
          RetryTokenStored(p, cfg, s.memory, f.req, CheckpointOf(s.memory, f.req.pepID).value);
        }
      }
    }
  }

  lemma CommitKeepsGrants(p: Primitives, cfg: VerifierConfig, s: Server, id: nat, now: int, saved: bool)
    requires KeyPair(p, cfg.publicKey, cfg.privateKey) && GrantInvariant(p, cfg, s)
    requires id in s.flights && s.flights[id].req.history.Some?
    requires Finish(p, cfg, s.memory, s.flights[id], now, saved).committed
    ensures var s' := ServerNext(p, cfg, s, FinishStep(id, now, saved)).0;
      && (forall tok :: tok in s'.granted ==> Sound(p, cfg, s'.commits, tok))
      && (forall pep :: pep in s'.memory.lastTokens ==> Sound(p, cfg, s'.commits, s'.memory.lastTokens[pep]))
  {
    hide ServerInvariant, Sound, Finish, ValidEvidence, Appraise, Screened;
    var f := s.flights[id];
    var v := CommittedFinish(p, cfg, s.memory, f, now, saved);
    var r := CommitRecord(f.req, now, v.tok);
    FlightIsScreened(p, cfg, s, id);
    NewTokenIsSound(p, cfg, s.commits, f.req, now, v.tok);
    forall tok | Sound(p, cfg, s.commits, tok) ensures Sound(p, cfg, s.commits + [r], tok) {
      StillSound(p, cfg, s.commits, r, tok);
    }
  }

  lemma FlightIsScreened(p: Primitives, cfg: VerifierConfig, s: Server, id: nat)
    requires ServerInvariant(p, cfg, s) && id in s.flights
    ensures Screened(cfg, s.flights[id].req)
  {
    hide EntryOf, TokensBound, Sequential, SequentialAnswers, WellScreened, Screened;
    assert FlightCurrent(cfg, s.memory, s.flights[id]);
  }

  lemma NewTokenIsSound(p: Primitives, cfg: VerifierConfig, commits: seq<CommitRecord>, req: CapacityRequest, now: int,
                        tok: Token)
    requires KeyPair(p, cfg.publicKey, cfg.privateKey) && Screened(cfg, req)
    requires SignToken(p, NewToken(p, cfg, req, now), cfg.privateKey) == Some(tok)
    ensures Sound(p, cfg, commits + [CommitRecord(req, now, tok)], tok)
  {
    hide Authorised, IsTokenOf, Screened, NewToken;
    NewTokenIsAuthorised(p, cfg, req, now, tok);
    var r := CommitRecord(req, now, tok);
    assert (commits + [r])[|commits|] == r;
  }

  lemma RestartKeepsGrants(p: Primitives, cfg: VerifierConfig, s: Server)
    requires GrantInvariant(p, cfg, s)
    ensures GrantInvariant(p, cfg, ServerNext(p, cfg, s, Restart).0)
  {
    hide Sound, EntryOf, TokensBound, Sequential, SequentialAnswers, WellScreened, Screened;
    ServerStepKeepsInvariant(p, cfg, s, Restart);
  }

  /**
   In every run, every token ever handed out was issued for a checkpoint this Verifier accepted and committed
   for that PEP, for the configured time from that moment, and grants an enrolled PEP what it asked for and no more
   than the configuration allows.
   */
  lemma {:induction false} GrantedTokensAreAuthorised(p: Primitives, cfg: VerifierConfig, steps: seq<ServerStep>)
    requires KeyPair(p, cfg.publicKey, cfg.privateKey)
    ensures GrantInvariant(p, cfg, ServerRun(p, cfg, steps))
    decreases |steps|
  {
    hide ServerNext, ServerInvariant, Sound;
    if steps == [] {
      FreshServerInvariant(p, cfg);
    } else {
      var s := ServerRun(p, cfg, steps[..|steps| - 1]);
      GrantedTokensAreAuthorised(p, cfg, steps[..|steps| - 1]);
      match steps[|steps| - 1]
      case BeginStep(id, req) => BeginKeepsGrants(p, cfg, s, id, req);
      case FinishStep(id, now, saved) => FinishKeepsGrants(p, cfg, s, id, now, saved);
      case Restart => RestartKeepsGrants(p, cfg, s);
    }
  }
}
