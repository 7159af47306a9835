/** What capacityHandler decides (verifier/main.go:89-252), case by case, in the fields of request, state and token. */
module HandlerDecisions {
  import opened Wrappers
  import opened Protocol
  import opened Text
  import opened Attest
  import opened Tokens
  import opened Policy
  import opened Verifier

  /** All that a request must say is said. */
  predicate Filled(req: CapacityRequest) {
    && |req.pepID| > 0 && |req.pepSigningPubKey| > 0 && |req.measurement| > 0 && |req.policyHash| > 0
    && req.maxSALifetime > 0
  }

  /** It comes under the key enrolled for the PEP, from the software expected. */
  predicate Trusted(cfg: VerifierConfig, req: CapacityRequest) {
    && req.pepID in cfg.enrolled && cfg.enrolled[req.pepID] == req.pepSigningPubKey
    && (cfg.expectedMeasurement == "" || req.measurement == cfg.expectedMeasurement)
    && (cfg.expectedPolicyHash == "" || req.policyHash == cfg.expectedPolicyHash)
  }

  /** Every scope it names may be given. */
  ghost predicate Allowed(cfg: VerifierConfig, scope: seq<string>) {
    || (exists j :: 0 <= j < |cfg.allowedScope| && TrimSpace(cfg.allowedScope[j]) == "*")
    || forall i :: 0 <= i < |scope| && scope[i] != "" ==>
         exists j :: 0 <= j < |cfg.allowedScope| && TrimSpace(cfg.allowedScope[j]) == scope[i]
  }

  lemma AllowedIsSubset(cfg: VerifierConfig, scope: seq<string>)
    ensures ScopeSubset(scope, cfg.allowedScope) <==> Allowed(cfg, scope)
  {
    hide TrimSpace;
    forall want: string
      ensures Contains(cfg.allowedScope, want)
              <==> exists j :: 0 <= j < |cfg.allowedScope| && TrimSpace(cfg.allowedScope[j]) == want
    {
      if Contains(cfg.allowedScope, want) {
        var j :| 0 <= j < |cfg.allowedScope| && Trimmed(cfg.allowedScope)[j] == want;
      }
      forall j | 0 <= j < |cfg.allowedScope| ensures Trimmed(cfg.allowedScope)[j] == TrimSpace(cfg.allowedScope[j]) {
      }
    }
  }

  /** Who passes the screening, with the lifetime cut down to the cap, and how the others are turned away. */
  lemma ScreenedExactly(cfg: VerifierConfig, req: CapacityRequest)
    ensures Screen(cfg, req).Success? <==>
      Filled(req) && Trusted(cfg, req) && req.scope != [] && Allowed(cfg, req.scope) && req.history.Some?
    ensures Screen(cfg, req).Success? ==>
      Screen(cfg, req).value == req.(maxSALifetime :=
        if 0 < cfg.maxSALifetime < req.maxSALifetime then cfg.maxSALifetime else req.maxSALifetime)
    ensures Screen(cfg, req) == Failure(BadRequest) <==>
      !Filled(req) || (Trusted(cfg, req) && (req.scope == [] || (Allowed(cfg, req.scope) && req.history.None?)))
    ensures Screen(cfg, req).Failure? ==> Screen(cfg, req).error in {BadRequest, Forbidden}
  {
    AllowedIsSubset(cfg, req.scope);
    hide ScopeSubset, Allowed;
  }

  /** The request is the one the stored token was issued for, sent again: the same checkpoint, and the same terms. */
  ghost predicate SentAgain(p: Primitives, cfg: VerifierConfig, st: VerifierState, req: CapacityRequest) {
    && req.history.Some? && req.pepID in st.checkpoints && req.pepID in st.lastTokens
    && var c, tok := st.checkpoints[req.pepID], st.lastTokens[req.pepID];
    && req.history.value.checkpoint == c
    && p.verify(req.pepSigningPubKey, CheckpointDoc(c.(signature := "")), c.signature)
    && tok.signature != "" && tok.checkpointHash == p.digest(CheckpointDoc(c))
    && tok.pepID == c.pepID && tok.pepSigningPubKey == req.pepSigningPubKey
    && p.parseTime(tok.issuedAt).Some?
    && VerifyCapacityToken(p, tok, cfg.publicKey, p.parseTime(tok.issuedAt).value).Pass?
    && tok.verifierID == cfg.verifierID && tok.observerProfile == cfg.requiredObserver
    && tok.measurement == req.measurement && tok.policyHash == req.policyHash
    && tok.maxSALifetime == req.maxSALifetime
    && multiset(Trimmed(tok.scope)) == multiset(Trimmed(req.scope))
  }

  lemma SentAgainIsRetry(p: Primitives, cfg: VerifierConfig, st: VerifierState, req: CapacityRequest)
    requires req.history.Some?
    ensures SentAgain(p, cfg, st, req) <==>
      && CheckpointOf(st, req.pepID).Some?
      && IsRetry(p, cfg, req, CheckpointOf(st, req.pepID).value, TokenOf(st, req.pepID))
  {
    hide VerifyCapacityToken, Trimmed;
  }

  /**
   The first section: a request that fails the screening is turned away; one sent again is answered with the stored
   token; and any other goes on with copies of what is stored for its PEP.
   */
  lemma BeginExactly(p: Primitives, cfg: VerifierConfig, st: VerifierState, req: CapacityRequest)
    ensures match Screen(cfg, req)
      case Failure(status) => Begin(p, cfg, st, req) == Answered(Denied(status))
      case Success(screened) =>
        if SentAgain(p, cfg, st, screened) then Begin(p, cfg, st, req) == Answered(Granted(st.lastTokens[req.pepID]))
        else
          var previous := if req.pepID in st.checkpoints then Some(st.checkpoints[req.pepID]) else None;
          var active := if req.pepID in st.activeStates then st.activeStates[req.pepID] else map[];
          Begin(p, cfg, st, req) == Flying(Flight(screened, previous, active))
  {
    ScreenedExactly(cfg, req);
    hide Screen, IsRetry, SentAgain, Allowed;
    if Screen(cfg, req).Success? {
      var screened := Screen(cfg, req).value;
      SentAgainIsRetry(p, cfg, st, screened);
      StoredBoth(p, cfg, st, screened);
    }
  }

  lemma StoredBoth(p: Primitives, cfg: VerifierConfig, st: VerifierState, req: CapacityRequest)
    ensures SentAgain(p, cfg, st, req) ==> req.pepID in st.lastTokens
  {
    hide VerifyCapacityToken, Trimmed;
  }

  /** The token a request earns at `now`, but for its signature. */
  function Earned(p: Primitives, cfg: VerifierConfig, req: CapacityRequest, c: Checkpoint, now: int): Token {
    Token(1, "cryptna-pep-capacity-v1", cfg.verifierID, req.pepID, req.pepSigningPubKey, req.measurement,
          req.policyHash, req.scope, p.formatTime(now), p.formatTime(now + cfg.tokenTTLSeconds * 1_000_000_000),
          req.maxSALifetime, cfg.requiredObserver, p.digest(CheckpointDoc(c)), c.epoch, "")
  }

  /**
   The second section, in its order: evidence that does not check out is refused; a token that cannot be signed is an
   error; if the stored checkpoint has moved the request gets the stored token, if it was sent again, or a conflict;
   if the write fails, nothing changes; and otherwise checkpoint, active sessions and signed token are stored together
   for this PEP and for no other.
   */
  lemma FinishExactly(p: Primitives, cfg: VerifierConfig, st: VerifierState, f: Flight, now: int, saved: bool)
    requires f.req.history.Some?
    ensures var ev, done := f.req.history.value, Finish(p, cfg, st, f, now, saved);
      var pep, unsigned := f.req.pepID, Earned(p, cfg, f.req, f.req.history.value.checkpoint, now);
      var judged := Appraise(PolicyContext(p, f.req.scope, f.req.maxSALifetime, cfg.requiredObserver), ev, f.active);
      var stored := if pep in st.checkpoints then Some(st.checkpoints[pep]) else None;
      var signature := p.sign(cfg.privateKey, TokenBody(unsigned.(scope := []), multiset(unsigned.scope)));
      if !ValidEvidence(p, ev, pep, f.req.pepSigningPubKey, f.previous) || judged.None? then
        done == Finished(st, Denied(Forbidden), false)
      else if signature.None? then done == Finished(st, Denied(ServerError), false)
      else if stored != f.previous then
        done == Finished(st, if SentAgain(p, cfg, st, f.req) then Granted(st.lastTokens[pep]) else Denied(Conflict),
                         false)
      else if !saved then done == Finished(st, Denied(ServerError), false)
      else
        var tok := unsigned.(signature := signature.value);
        done == Finished(VerifierState(st.checkpoints[pep := ev.checkpoint], st.activeStates[pep := judged.value],
                                       st.lastTokens[pep := tok]), Granted(tok), true)
  {
    SentAgainIsRetry(p, cfg, st, f.req);
    StoredBoth(p, cfg, st, f.req);
    hide ValidEvidence, Appraise, IsRetry, SentAgain;
  }
}
