/** SA lifetimes: boundLifetime and signSABinding of pep/attestation.go, and the activation built around them. */
module Lifetime {
  import opened Wrappers
  import opened Protocol
  import opened Attest
  import opened Tokens

  /** Go's conversion of a duration to whole seconds: towards zero. */
  function WholeSeconds(d: int): int {
    if d >= 0 then d / SECOND else -(-d / SECOND)
  }

  datatype LifetimeError = UnreadableExpiry | NothingRemains

  /**
   boundLifetime at clock reading `now`: a positive result is the largest lifetime within the request, the
   token's maximum and the token's remaining validity.
   */
  method BoundLifetime(p: Primitives, requested: int, tok: Token, now: int)
    returns (r: Result<int, LifetimeError>)
    ensures r.Success? ==> LifetimeBound(p, requested, tok, now, r.value)
    ensures r.Success? ==>
      && 0 < r.value <= requested && r.value <= tok.maxSALifetime
      && p.parseTime(tok.expiresAt).Some? && now + r.value * 1_000_000_000 <= p.parseTime(tok.expiresAt).value
      && (r.value < requested && r.value < tok.maxSALifetime ==>
            p.parseTime(tok.expiresAt).value < now + (r.value + 1) * 1_000_000_000)
    ensures r.Failure? && r.error == UnreadableExpiry <==> p.parseTime(tok.expiresAt).None?
    ensures r.Failure? && r.error == NothingRemains ==>
      forall l :: l > 0 ==> !WithinBounds(p, requested, tok, now, l)
  {
    var lifetime := requested;
    if lifetime > tok.maxSALifetime {
      lifetime := tok.maxSALifetime;
    }
    var exp := p.parseTime(tok.expiresAt);
    if exp.None? {
      return Failure(UnreadableExpiry);
    }
    var remaining := WholeSeconds(exp.value - now);
    if remaining < lifetime {
      lifetime := remaining;
    }
    if lifetime <= 0 {
      return Failure(NothingRemains);
    }
    return Success(lifetime);
  }

  predicate WithinBounds(p: Primitives, requested: int, tok: Token, now: int, l: int) {
    && l <= requested
    && l <= tok.maxSALifetime
    && p.parseTime(tok.expiresAt).Some?
    && now + l * SECOND <= p.parseTime(tok.expiresAt).value
  }

  ghost predicate LifetimeBound(p: Primitives, requested: int, tok: Token, now: int, l: int) {
    && 0 < l
    && WithinBounds(p, requested, tok, now, l)
    && forall m :: WithinBounds(p, requested, tok, now, m) ==> m <= l
  }

  /** The activation response and its binding, for a session whose expiry is read off the clock at `now`. */
  function Activation(
    p: Primitives, req: ActivateRequest, tok: Token, pepPriv: string, serviceIP: string, innerIP: string,
    pepInSPI: string, pepDHPub: string, aead: string, lifetime: int, now: int): Option<ActivationResponse>
  {
    var expiresAt := p.formatTime(now + lifetime * SECOND);
    var unsigned :=
      Binding(1, TokenHash(p, tok), tok.pepID, req.clientPubKey, req.serviceID, serviceIP, innerIP,
              req.clientInSPI, pepInSPI, req.clientDHPub, pepDHPub, aead, lifetime, expiresAt, "");
    match SignBinding(p, unsigned, pepPriv)
    case None => None
    case Some(b) =>
      Some(ActivationResponse(req.serviceID, serviceIP, innerIP, req.clientInSPI, pepInSPI, pepDHPub, aead,
                              lifetime, expiresAt, Some(tok), Some(b)))
  }

  /** What the PDP hands to the client: the response with the PEP's WAN endpoint added. */
  function Relay(r: ActivationResponse, address: string, port: int): TunnelParams {
    TunnelParams(r.serviceID, r.serviceIP, address, port, r.clientInnerIP, r.clientInSPI, r.pepInSPI,
                 r.pepDHPub, r.aead, r.saLifetime, r.expiresAt, r.capacityToken, r.saBinding)
  }

  /** The second clock reading keeps the floored SA expiry within the token exactly when it is early enough. */
  predicate InTime(p: Primitives, tok: Token, lifetime: int, now: int)
    requires p.parseTime(tok.expiresAt).Some?
  {
    now + lifetime * SECOND < p.parseTime(tok.expiresAt).value + SECOND
  }

  lemma FlooredWithin(t: int, exp: int)
    requires exp % SECOND == 0
    ensures FloorSecond(t) <= exp <==> t < exp + SECOND
  {
  }

  lemma FormattedIsWhole(p: Primitives, t: int)
    requires Rfc3339(p)
    ensures p.parseTime(p.formatTime(t)).value % SECOND == 0
  {
    assert p.parseTime(p.formatTime(t)) == Some(FloorSecond(t));
    assert FloorSecond(t) == SECOND * (t / SECOND);
  }

  /** The verdict of a client at `now` on an activation relayed unchanged. */
  function HonestVerdict(p: Primitives, tok: Token, serviceID: string, verifierPub: string, inTime: bool, now: int)
    : Outcome<TokenError>
  {
    var v := VerifyCapacityToken(p, tok, verifierPub, now);
    if v.Fail? then v
    else if !ScopeAllows(tok.scope, serviceID) then Fail(ScopeDenied)
    else if !inTime then Fail(LifetimeExceeded)
    else Pass
  }

  /**
   An honest activation, relayed unchanged, is accepted by the client exactly while its token is valid for
   the service and the session's clock reading was in time.
   */
  lemma HonestTunnelVerdict(
    p: Primitives, req: ActivateRequest, tok: Token, pepPriv: string, serviceIP: string, innerIP: string,
    pepInSPI: string, pepDHPub: string, aead: string, lifetime: int, issued: int, created: int,
    address: string, port: int, verifierPub: string, now: int)
    requires Rfc3339(p) && KeyPair(p, tok.pepSigningPubKey, pepPriv)
    requires tok.expiresAt == p.formatTime(issued) && lifetime <= tok.maxSALifetime
    ensures var r := Activation(p, req, tok, pepPriv, serviceIP, innerIP, pepInSPI, pepDHPub, aead, lifetime, created);
      && r.Some?
      && VerifyTunnelBinding(p, Relay(r.value, address, port), req.clientPubKey, req.clientDHPub, verifierPub, now)
         == HonestVerdict(p, tok, req.serviceID, verifierPub, InTime(p, tok, lifetime, created), now)
  {
    var r := Activation(p, req, tok, pepPriv, serviceIP, innerIP, pepInSPI, pepDHPub, aead, lifetime, created);
    FormattedIsWhole(p, issued);
    FlooredWithin(created + lifetime * SECOND, p.parseTime(tok.expiresAt).value);
    assert r.Some?;
    var bind := r.value.saBinding.value;
    assert p.verify(tok.pepSigningPubKey, BindingBody(bind), bind.signature);
  }

  /**
   When the session is created less than a second after the lifetime was bounded, its expiry never passes
   the token's, and the client accepts it for as long as the token itself is valid.
   */
  lemma HonestTunnelAccepted(
    p: Primitives, requested: int, bounded: int, req: ActivateRequest, tok: Token, pepPriv: string,
    serviceIP: string, innerIP: string, pepInSPI: string, pepDHPub: string, aead: string, lifetime: int,
    issued: int, created: int, address: string, port: int, verifierPub: string, now: int)
    requires Rfc3339(p) && KeyPair(p, tok.pepSigningPubKey, pepPriv)
    requires tok.expiresAt == p.formatTime(issued)
    requires LifetimeBound(p, requested, tok, bounded, lifetime)
    requires bounded <= created < bounded + SECOND
    ensures 0 < lifetime <= tok.maxSALifetime
    ensures var r := Activation(p, req, tok, pepPriv, serviceIP, innerIP, pepInSPI, pepDHPub, aead, lifetime, created);
      && r.Some?
      && p.parseTime(r.value.expiresAt).Some?
      && p.parseTime(r.value.expiresAt).value <= p.parseTime(tok.expiresAt).value
      && (VerifyTunnelBinding(p, Relay(r.value, address, port), req.clientPubKey, req.clientDHPub, verifierPub,
                              now).Pass?
          <==> VerifyCapacityToken(p, tok, verifierPub, now).Pass? && ScopeAllows(tok.scope, req.serviceID))
  {
    HonestTunnelVerdict(p, req, tok, pepPriv, serviceIP, innerIP, pepInSPI, pepDHPub, aead, lifetime, issued,
                        created, address, port, verifierPub, now);
    FormattedIsWhole(p, issued);
    FlooredWithin(created + lifetime * SECOND, p.parseTime(tok.expiresAt).value);
  }

  /** One second is the limit: with a later clock reading the session can outlive its token. */
  lemma SlowActivationOutlivesToken(p: Primitives, tok: Token, issued: int, bounded: int, created: int)
    requires Rfc3339(p) && tok.expiresAt == p.formatTime(issued) && issued % SECOND == 0
    requires bounded == issued - SECOND && created == bounded + SECOND && tok.maxSALifetime == 1
    ensures LifetimeBound(p, 1, tok, bounded, 1)
    ensures p.parseTime(p.formatTime(created + SECOND)).value > p.parseTime(tok.expiresAt).value
  {
    assert p.parseTime(tok.expiresAt) == Some(issued);
    assert p.parseTime(p.formatTime(created + SECOND)) == Some(FloorSecond(issued + SECOND));
  }
}
