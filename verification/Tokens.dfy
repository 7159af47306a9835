/** Capacity tokens and SA bindings: the second half of common/attest/attest.go. */
module Tokens {
  import opened Wrappers
  import opened Protocol
  import opened Attest

  const TOKEN_TYPE := "cryptna-pep-capacity-v1"
  const EARLY_TOLERANCE := 5 * SECOND

  datatype TokenError =
    | Unsupported
    | InvalidSignature
    | BadTime
    | Immature
    | Expired
    | MissingAttestation
    | ScopeDenied
    | LifetimeExceeded
    | BindingMismatch

  /** What the Verifier signs: no signature, and the scope sorted, that is, as a multiset. */
  function SigningBody(t: Token): Document {
    TokenBody(t.(scope := [], signature := ""), multiset(t.scope))
  }

  function SignToken(p: Primitives, t: Token, priv: string): Option<Token> {
    match p.sign(priv, SigningBody(t))
    case Some(sig) => Some(t.(signature := sig))
    case None => None
  }

  function TokenHash(p: Primitives, t: Token): string {
    p.digest(TokenDoc(t))
  }

  function VerifyCapacityToken(p: Primitives, t: Token, pub: string, now: int): Outcome<TokenError> {
    if t.version != 1 || t.tokenType != TOKEN_TYPE then Fail(Unsupported)
    else if !p.verify(pub, SigningBody(t), t.signature) then Fail(InvalidSignature)
    else if t.issuedAt != "" && p.parseTime(t.issuedAt).None? then Fail(BadTime)
    else if t.issuedAt != "" && now + EARLY_TOLERANCE < p.parseTime(t.issuedAt).value then Fail(Immature)
    else if p.parseTime(t.expiresAt).None? then Fail(BadTime)
    else if now >= p.parseTime(t.expiresAt).value then Fail(Expired)
    else Pass
  }

  function BindingBody(b: Binding): Document {
    BindingDoc(b.(signature := ""))
  }

  function SignBinding(p: Primitives, b: Binding, priv: string): Option<Binding> {
    match p.sign(priv, BindingBody(b))
    case Some(sig) => Some(b.(signature := sig))
    case None => None
  }

  predicate ScopeAllows(scope: seq<string>, serviceID: string) {
    serviceID in scope || "*" in scope
  }

  /** The binding a client expects for these tunnel parameters. */
  function ExpectedBinding(t: TunnelParams, tok: Token, bind: Binding, tokenHash: string, clientPub: string,
                           clientDH: string): Binding
  {
    Binding(bind.version, tokenHash, tok.pepID, clientPub, t.serviceID, t.serviceIP, t.clientInnerIP,
            t.clientInSPI, t.pepInSPI, clientDH, t.pepDHPub, t.aead, t.saLifetime, t.expiresAt, bind.signature)
  }

  function VerifyTunnelBinding(
    p: Primitives, t: TunnelParams, clientPub: string, clientDH: string, verifierPub: string, now: int)
    : Outcome<TokenError>
  {
    if t.capacityToken.None? || t.saBinding.None? then Fail(MissingAttestation)
    else
      var tok, bind := t.capacityToken.value, t.saBinding.value;
      var v := VerifyCapacityToken(p, tok, verifierPub, now);
      if v.Fail? then v
      else if !ScopeAllows(tok.scope, t.serviceID) then Fail(ScopeDenied)
      else if t.saLifetime > tok.maxSALifetime then Fail(LifetimeExceeded)
      else if p.parseTime(tok.expiresAt).None? || p.parseTime(t.expiresAt).None? then Fail(BadTime)
      else if p.parseTime(t.expiresAt).value > p.parseTime(tok.expiresAt).value then Fail(LifetimeExceeded)
      else if bind.tokenHash != TokenHash(p, tok) then Fail(BindingMismatch)
      else if bind.version != 1 then Fail(Unsupported)
      else if !p.verify(tok.pepSigningPubKey, BindingBody(bind), bind.signature) then Fail(InvalidSignature)
      else if bind != ExpectedBinding(t, tok, bind, TokenHash(p, tok), clientPub, clientDH) then Fail(BindingMismatch)
      else Pass
  }

  /**
   No substitution: two tunnels a client accepts under one binding are the same tunnel, for the same keys and
   under the same token, whatever address and port they were handed out with.
   */
  lemma BindingDeterminesTunnel(p: Primitives, t: TunnelParams, t': TunnelParams, clientPub: string, clientPub': string,
                                clientDH: string, clientDH': string, verifierPub: string, now: int, now': int)
    requires CollisionFree(p) && t.saBinding == t'.saBinding
    requires VerifyTunnelBinding(p, t, clientPub, clientDH, verifierPub, now).Pass?
    requires VerifyTunnelBinding(p, t', clientPub', clientDH', verifierPub, now').Pass?
    ensures t'.(pepAddress := t.pepAddress, pepPort := t.pepPort) == t
    ensures clientPub' == clientPub && clientDH' == clientDH
  {
    hide VerifyCapacityToken;
    var tok, tok' := t.capacityToken.value, t'.capacityToken.value;
    assert p.digest(TokenDoc(tok)) == p.digest(TokenDoc(tok'));
    assert TokenDoc(tok) == TokenDoc(tok');
  }
}
