/**
 What a client knows of a tunnel it accepts: common/attest/attest.go:158-218 spelt out, and what follows when only
 the Verifier signs tokens and only the PEP signs bindings.
 */
module Tunnels {
  import opened Protocol
  import opened Attest
  import opened Tokens
  import opened Verifier
  import opened VerifierRuns
  import opened Grants
  import opened Authority

  /** Signed by the Verifier, for this moment: issued no more than five seconds ahead, and not yet expired. */
  lemma TokenAcceptedExactly(p: Primitives, tok: Token, pub: string, now: int)
    ensures VerifyCapacityToken(p, tok, pub, now).Pass?
      <==>
      (&& tok.version == 1 && tok.tokenType == "cryptna-pep-capacity-v1"
       && p.verify(pub, TokenBody(tok.(scope := [], signature := ""), multiset(tok.scope)), tok.signature)
       && (tok.issuedAt != "" ==>
             p.parseTime(tok.issuedAt).Some? && p.parseTime(tok.issuedAt).value <= now + 5 * 1_000_000_000)
       && p.parseTime(tok.expiresAt).Some? && now < p.parseTime(tok.expiresAt).value)
  {
  }

  /**
   A client accepts a tunnel exactly if its token is good now, covers the service, and outlives the SA; and its binding
   is signed by the PEP the token names and says, field by field, what the tunnel says, for this token and these keys.
   */
  lemma TunnelAcceptedExactly(p: Primitives, t: TunnelParams, clientPub: string, clientDH: string, verifierPub: string,
                              now: int)
    ensures VerifyTunnelBinding(p, t, clientPub, clientDH, verifierPub, now).Pass?
      <==>
      (&& t.capacityToken.Some? && t.saBinding.Some?
       && var tok, b := t.capacityToken.value, t.saBinding.value;
       && VerifyCapacityToken(p, tok, verifierPub, now).Pass?
       && (t.serviceID in tok.scope || "*" in tok.scope)
       && t.saLifetime <= tok.maxSALifetime
       && p.parseTime(t.expiresAt).Some? && p.parseTime(t.expiresAt).value <= p.parseTime(tok.expiresAt).value
       && p.verify(tok.pepSigningPubKey, BindingDoc(b.(signature := "")), b.signature)
       && b == Binding(1, p.digest(TokenDoc(tok)), tok.pepID, clientPub, t.serviceID, t.serviceIP, t.clientInnerIP,
                       t.clientInSPI, t.pepInSPI, clientDH, t.pepDHPub, t.aead, t.saLifetime, t.expiresAt, b.signature))
  {
    TokenGood(p, t, verifierPub, now);
    hide VerifyCapacityToken;
  }

  lemma TokenGood(p: Primitives, t: TunnelParams, verifierPub: string, now: int)
    ensures t.capacityToken.Some? && VerifyCapacityToken(p, t.capacityToken.value, verifierPub, now).Pass? ==>
      p.parseTime(t.capacityToken.value.expiresAt).Some?
  {
  }

  // ---------- signatures ----------

  /** Nobody but the holder of this PEP's key has signed a binding that verifies, and these are the ones it signed. */
  ghost predicate BindingUnforged(p: Primitives, pub: string, signed: set<Binding>, b: Binding) {
    p.verify(pub, BindingDoc(b.(signature := "")), b.signature) ==>
      exists s :: s in signed && s.(signature := "") == b.(signature := "")
  }

  /** Equal but for the text of the signature and the order of the scopes. */
  predicate SameGrant(a: Token, b: Token) {
    a.(scope := [], signature := "") == b.(scope := [], signature := "") && multiset(a.scope) == multiset(b.scope)
  }

  /**
   What stands behind a tunnel.  The PEP that the token names signed a binding with exactly the parameters the client
   was given, for the client's own keys, this token, and an SA that does not outlive it.  The token was handed out by
   the Verifier, for a checkpoint it had accepted and committed for that PEP, and covers the service.
   */
  lemma AcceptedTunnelIsAuthorised(p: Primitives, cfg: VerifierConfig, steps: seq<ServerStep>, t: TunnelParams,
                                   clientPub: string, clientDH: string, now: int, signed: set<Binding>)
    returns (b: Binding, tok: Token)
    requires KeyPair(p, cfg.publicKey, cfg.privateKey)
    requires VerifyTunnelBinding(p, t, clientPub, clientDH, cfg.publicKey, now).Pass?
    requires var held := t.capacityToken.value;
      p.verify(cfg.publicKey, SigningBody(held), held.signature) ==> Handed(ServerRun(p, cfg, steps).granted, held)
    requires BindingUnforged(p, t.capacityToken.value.pepSigningPubKey, signed, t.saBinding.value)
    ensures b in signed && b.clientPubKey == clientPub && b.clientDHPub == clientDH
    ensures b.serviceID == t.serviceID && b.serviceIP == t.serviceIP && b.clientInnerIP == t.clientInnerIP
    ensures b.clientInSPI == t.clientInSPI && b.pepInSPI == t.pepInSPI && b.pepDHPub == t.pepDHPub && b.aead == t.aead
    ensures b.saLifetime == t.saLifetime && b.expiresAt == t.expiresAt
    ensures b.tokenHash == p.digest(TokenDoc(t.capacityToken.value)) && b.pepID == tok.pepID
    ensures tok in ServerRun(p, cfg, steps).granted && SameGrant(tok, t.capacityToken.value)
    ensures Sound(p, cfg, ServerRun(p, cfg, steps).commits, tok)
    ensures t.serviceID in tok.scope || "*" in tok.scope
    ensures 0 < tok.maxSALifetime && t.saLifetime <= tok.maxSALifetime
    ensures p.parseTime(t.expiresAt).Some? && p.parseTime(tok.expiresAt).Some?
    ensures p.parseTime(t.expiresAt).value <= p.parseTime(tok.expiresAt).value && now < p.parseTime(tok.expiresAt).value
  {
    hide ServerInvariant, ServerRun, KeyPair, IssuedFor, VerifyTunnelBinding;
    TunnelAcceptedExactly(p, t, clientPub, clientDH, cfg.publicKey, now);
    var held, bind := t.capacityToken.value, t.saBinding.value;
    TokenAcceptedExactly(p, held, cfg.publicKey, now);
    b :| b in signed && b.(signature := "") == bind.(signature := "");
    assert b == b.(signature := "").(signature := b.signature);
    tok :| tok in ServerRun(p, cfg, steps).granted && SigningBody(tok) == SigningBody(held);
    assert held == held.(scope := [], signature := "").(scope := held.scope, signature := held.signature);
    assert forall s :: s in held.scope <==> s in multiset(held.scope);
    assert forall s :: s in tok.scope <==> s in multiset(tok.scope);
    GrantedTokensAreAuthorised(p, cfg, steps);
  }
}
