/**
 What single-packet authorisation computes, spelt out in HMAC, hash and cipher without the state the code passes
 along, and what follows for a PDP that has other secrets than the packet was built for.
 */
module SpaSchedule {
  import opened Wrappers
  import opened Spa

  // ---------- integers ----------

  /** The first byte of a number weighs most. */
  lemma {:induction false} MostSignificantFirst(b: Byte, rest: Bytes)
    ensures FromBE([b] + rest) == b * Pow256(|rest|) + FromBE(rest)
    decreases |rest|
  {
    var n := |rest|;
    if n == 0 {
      assert [b] + rest == [b] && [b][..0] == [];
    } else {
      assert ([b] + rest)[..n] == [b] + rest[..n - 1];
      MostSignificantFirst(b, rest[..n - 1]);
      Regroup(b, Pow256(n - 1), FromBE(rest[..n - 1]));
    }
  }

  lemma Regroup(b: nat, w: nat, low: nat)
    ensures (b * w + low) * 256 == b * (256 * w) + low * 256
  {
  }

  /** The nonce is four zero bytes and the counter, whose first byte weighs least. */
  lemma {:induction false} LeastSignificantFirst(n: nat, len: nat)
    requires len > 0
    ensures ToLE(n, len)[0] == n % 256 && ToLE(n, len)[1..] == ToLE(n / 256, len - 1)
    ensures |Nonce(n)| == 12 && Nonce(n)[..4] == [0, 0, 0, 0] && Nonce(n)[4..] == ToLE(n, 8)
  {
  }

  // ---------- the keys ----------

  /** What the header and the payload are sealed under, with what associated data, and what the response will be. */
  datatype Schedule = Schedule(headerKey: Bytes, headerData: Bytes, payloadKey: Bytes, payloadData: Bytes,
                               responseKey: Bytes)

  const NAME := "Noise_IKpsk1_25519_AESGCM_SHA256"

  /** Each secret goes into the key of one HMAC as the message of the one before. */
  function ScheduleOf(x: Suite, ePub: Bytes, es: Bytes, ns: Bytes, ss: Bytes, psk: Bytes): Schedule {
    var name := x.sha(Ascii(NAME));
    var ck1 := x.hmac(x.hmac(name, ePub), [1]);
    var t2 := x.hmac(ck1, es);
    var ck2 := x.hmac(t2, [1]);
    var ck3 := x.hmac(x.hmac(ck2, ss), [1]);
    var t4 := x.hmac(ck3, psk);
    var ck4 := x.hmac(t4, [1]);
    var mixed := x.hmac(t4, ck4 + [2]);
    var t5 := x.hmac(ck4, []);
    Schedule(x.hmac(t2, ck2 + [2]),
             x.sha(name + ePub),
             x.hmac(t4, mixed + [3]),
             x.sha(x.sha(x.sha(name + ePub) + ns) + mixed),
             x.hmac(t5, x.hmac(t5, [1]) + [2]))
  }

  const ZEROS: Bytes := [0, 0, 0, 0, 0, 0, 0, 0, 0, 0, 0, 0]

  lemma NonceIsZero()
    ensures Nonce(0) == ZEROS
  {
    assert ToLE(0, 0) == [] && ToLE(0, 1) == [0] && ToLE(0, 2) == [0, 0];
    assert ToLE(0, 4) == [0, 0, 0, 0] && ToLE(0, 8) == [0, 0, 0, 0, 0, 0, 0, 0];
  }

  lemma HeaderSpelledOut(x: Suite, ePub: Bytes, es: Bytes, ns: Bytes, ss: Bytes, psk: Bytes)
    ensures var keys, header := ScheduleOf(x, ePub, es, ns, ss, psk), HeaderState(x, ePub, es);
      && header.k == Some(keys.headerKey) && header.h == keys.headerData && header.n == 0
  {
  }

  lemma PayloadSpelledOut(x: Suite, ePub: Bytes, es: Bytes, ns: Bytes, ss: Bytes, psk: Bytes, nm: Bytes)
    ensures var keys := ScheduleOf(x, ePub, es, ns, ss, psk);
      var body := PayloadState(x, HeaderState(x, ePub, es), ns, ss, psk);
      && body.k == Some(keys.payloadKey) && body.h == keys.payloadData && body.n == 0
      && ResponseKeyOf(x, MixedHash(x, Counted(body), nm)) == keys.responseKey
  {
  }

  /** The stamp and the client's key, sealed. */
  function SealedHeader(x: Suite, keys: Schedule, timestampMS: int, clientPub: Bytes): Option<Bytes> {
    x.seal(keys.headerKey, ZEROS, keys.headerData, ToBE(timestampMS % 0x1_0000_0000_0000_0000, 8) + clientPub)
  }

  /** A packet is the ephemeral key, the sealed header and the sealed payload, sealed under these keys. */
  lemma BuildSpelledOut(x: Suite, client: ClientIdentity, pdpPub: string, payload: Bytes, ePriv: Bytes, now: int,
                        r: BuildResult)
    ensures Build(x, client, pdpPub, payload, ePriv, now) == Success(r)
      <==>
      (var cPriv, cPub, pPub, psk :=
         x.decode(client.staticPriv), x.decode(client.staticPub), x.decode(pdpPub), x.decode(client.psk);
       && cPriv.Some? && cPub.Some? && pPub.Some? && psk.Some?
       && |cPriv.value| == |cPub.value| == |pPub.value| == |psk.value| == 32
       && var ePub, es, ss := x.base(ePriv), x.dh(ePriv, pPub.value), x.dh(cPriv.value, pPub.value);
       && ePub.Some? && es.Some? && ss.Some?
       && var ns := SealedHeader(x, ScheduleOf(x, ePub.value, es.value, [], [], []), now / 1_000_000, cPub.value);
       && ns.Some?
       && var keys := ScheduleOf(x, ePub.value, es.value, ns.value, ss.value, psk.value);
       var nm := x.seal(keys.payloadKey, ZEROS, keys.payloadData, payload);
       && nm.Some?
       && r == BuildResult(ePub.value + ns.value + nm.value, x.hex(x.sha(ePub.value + ns.value + nm.value)),
                           keys.responseKey, now / 1_000_000))
  {
    hide HeaderState, PayloadState, ScheduleOf, ToBE, Counted, MixedHash, ResponseKeyOf, Nonce;
    NonceIsZero();
    var cPriv, cPub, pPub, psk := DecodeKey(x, client.staticPriv), DecodeKey(x, client.staticPub),
      DecodeKey(x, pdpPub), DecodeKey(x, client.psk);
    if cPriv.Some? && cPub.Some? && pPub.Some? && psk.Some? {
      var ePub, es, ss := x.base(ePriv), x.dh(ePriv, pPub.value), x.dh(cPriv.value, pPub.value);
      if ePub.Some? && es.Some? && ss.Some? {
        HeaderSpelledOut(x, ePub.value, es.value, [], [], []);
        var header := HeaderState(x, ePub.value, es.value);
        var ns := EncryptWithKey(x, header.k, header.n, header.h, ToBE(Unsigned(Millis(now)), 8) + cPub.value);
        if ns.Some? {
          var body := PayloadState(x, header, ns.value, ss.value, psk.value);
          var nm := EncryptWithKey(x, body.k, body.n, body.h, payload);
          PayloadSpelledOut(x, ePub.value, es.value, ns.value, ss.value, psk.value,
                            if nm.Some? then nm.value else []);
        }
      }
    }
  }

  // ---------- opening ----------

  /** What a PDP derives from its identity, given the ephemeral and the client's static key. */
  datatype Secrets = Secrets(es: Bytes, ss: Bytes, psk: Bytes)

  function SecretsOf(x: Suite, pdp: PDPIdentity, ePub: Bytes, clientPub: Bytes): Option<Secrets> {
    var priv, psk := x.decode(pdp.staticPriv), x.decode(pdp.psk);
    if priv.None? || psk.None? || |priv.value| != 32 || |psk.value| != 32 then None
    else
      var es, ss := x.dh(priv.value, ePub), x.dh(priv.value, clientPub);
      if es.None? || ss.None? then None else Some(Secrets(es.value, ss.value, psk.value))
  }

  /** The milliseconds a stamp stands for, as a signed 64-bit number. */
  function StampOf(bytes: Bytes): int {
    var u := FromBE(bytes);
    if u < 0x8000_0000_0000_0000 then u else u - 0x1_0000_0000_0000_0000
  }

  /** The packet, cut where its parts end, opens to these under the keys of these secrets. */
  ghost predicate OpensTo(x: Suite, packet: Bytes, secrets: Secrets, header: Bytes, payload: Bytes)
    requires |packet| >= 88
  {
    var ePub, ns, nm := packet[..32], packet[32..88], packet[88..];
    var keys := ScheduleOf(x, ePub, secrets.es, ns, secrets.ss, secrets.psk);
    && x.open(keys.headerKey, ZEROS, keys.headerData, ns) == Some(header)
    && x.open(keys.payloadKey, ZEROS, keys.payloadData, nm) == Some(payload)
  }

  /**
   Any packet whatever opens for a PDP exactly if it has between 104 and 1200 bytes, its header opens to a stamp within
   the skew and a client's key, and its payload opens, under the keys that the PDP's secrets with these two keys give.
   */
  lemma OpenSpelledOut(x: Suite, packet: Bytes, pdp: PDPIdentity, now: int, skew: int, r: OpenResult)
    ensures Open(x, packet, pdp, now, skew) == Success(r)
      <==>
      (&& 104 <= |packet| <= 1200
       && exists header: Bytes, secrets: Secrets, payload: Bytes ::
            && |header| == 40
            && SecretsOf(x, pdp, packet[..32], header[8..]) == Some(secrets)
            && OpensTo(x, packet, secrets, header, payload)
            && var stamp := StampOf(header[..8]);
            && -skew <= now - stamp * 1_000_000 <= skew
            && r == OpenResult(x.encode(header[8..]), stamp, payload, x.hex(x.sha(packet)),
                               ScheduleOf(x, packet[..32], secrets.es, packet[32..88], secrets.ss, secrets.psk)
                                 .responseKey))
  {
    hide HeaderState, PayloadState, ScheduleOf, FromBE, Counted, MixedHash, ResponseKeyOf, Nonce;
    NonceIsZero();
    if 104 <= |packet| <= 1200 {
      forall header: Bytes, secrets: Secrets, payload: Bytes |
        |header| == 40 && SecretsOf(x, pdp, packet[..32], header[8..]) == Some(secrets)
        && OpensTo(x, packet, secrets, header, payload)
        ensures Open(x, packet, pdp, now, skew) ==
          OpenedAs(x, packet, header, secrets, payload, now, skew)
      {
        OpensIf(x, packet, pdp, now, skew, header, secrets, payload);
      }
      if Open(x, packet, pdp, now, skew).Success? {
        var header, secrets, payload := OpenedParts(x, packet, pdp, now, skew);
      }
    }
  }

  function OpenedAs(x: Suite, packet: Bytes, header: Bytes, secrets: Secrets, payload: Bytes, now: int, skew: int)
    : Result<OpenResult, SpaError>
    requires |packet| >= 88 && |header| == 40
  {
    var stamp := StampOf(header[..8]);
    if -skew <= now - stamp * 1_000_000 <= skew
    then Success(OpenResult(x.encode(header[8..]), stamp, payload, x.hex(x.sha(packet)),
                            ScheduleOf(x, packet[..32], secrets.es, packet[32..88], secrets.ss, secrets.psk)
                              .responseKey))
    else Failure(InvalidTime)
  }

  lemma OpensIf(x: Suite, packet: Bytes, pdp: PDPIdentity, now: int, skew: int, header: Bytes, secrets: Secrets,
                payload: Bytes)
    requires 104 <= |packet| <= 1200 && |header| == 40
    requires SecretsOf(x, pdp, packet[..32], header[8..]) == Some(secrets)
    requires OpensTo(x, packet, secrets, header, payload)
    ensures Open(x, packet, pdp, now, skew) == OpenedAs(x, packet, header, secrets, payload, now, skew)
  {
    hide HeaderState, PayloadState, ScheduleOf, FromBE, Counted, MixedHash, ResponseKeyOf, Nonce, MixedKey,
      MixedKeyAndHash;
    NonceIsZero();
    var ePub, ns, nm := packet[..32], packet[32..88], packet[88..];
    HeaderSpelledOut(x, ePub, secrets.es, ns, secrets.ss, secrets.psk);
    PayloadSpelledOut(x, ePub, secrets.es, ns, secrets.ss, secrets.psk, nm);
    PayloadStateSplit(x, HeaderState(x, ePub, secrets.es), ns, secrets.ss, secrets.psk);
  }

  lemma OpenedParts(x: Suite, packet: Bytes, pdp: PDPIdentity, now: int, skew: int)
    returns (header: Bytes, secrets: Secrets, payload: Bytes)
    requires 104 <= |packet| <= 1200 && Open(x, packet, pdp, now, skew).Success?
    ensures |header| == 40 && SecretsOf(x, pdp, packet[..32], header[8..]) == Some(secrets)
    ensures OpensTo(x, packet, secrets, header, payload)
  {
    hide HeaderState, PayloadState, ScheduleOf, FromBE, Counted, MixedHash, ResponseKeyOf, Nonce, MixedKey,
      MixedKeyAndHash;
    NonceIsZero();
    var ePub, ns, nm := packet[..32], packet[32..88], packet[88..];
    var priv := DecodeKey(x, pdp.staticPriv).value;
    var parts := OpenHeader(x, packet, pdp.staticPriv, now, skew).value;
    secrets := Secrets(x.dh(priv, ePub).value, x.dh(priv, parts.clientRaw).value, DecodeKey(x, pdp.psk).value);
    HeaderSpelledOut(x, ePub, secrets.es, ns, secrets.ss, secrets.psk);
    PayloadSpelledOut(x, ePub, secrets.es, ns, secrets.ss, secrets.psk, nm);
    PayloadStateSplit(x, HeaderState(x, ePub, secrets.es), ns, secrets.ss, secrets.psk);
    var keys := ScheduleOf(x, ePub, secrets.es, ns, secrets.ss, secrets.psk);
    header := x.open(keys.headerKey, ZEROS, keys.headerData, ns).value;
    payload := Open(x, packet, pdp, now, skew).value.payload;
  }

  // ---------- other secrets ----------

  /** The HMAC calls of a schedule, key and message, up to the payload's key. */
  function Calls(x: Suite, ePub: Bytes, secrets: Secrets): set<(Bytes, Bytes)> {
    var name := x.sha(Ascii(NAME));
    var ck1 := x.hmac(x.hmac(name, ePub), [1]);
    var t2 := x.hmac(ck1, secrets.es);
    var ck2 := x.hmac(t2, [1]);
    var t3 := x.hmac(ck2, secrets.ss);
    var ck3 := x.hmac(t3, [1]);
    var t4 := x.hmac(ck3, secrets.psk);
    var ck4 := x.hmac(t4, [1]);
    {(ck1, secrets.es), (t2, [1]), (t2, ck2 + [2]), (ck2, secrets.ss), (t3, [1]), (ck3, secrets.psk), (t4, [1]),
     (t4, ck4 + [2]), (t4, x.hmac(t4, ck4 + [2]) + [3])}
  }

  /** No two of these calls have one result. */
  ghost predicate NoCollision(x: Suite, calls: set<(Bytes, Bytes)>) {
    forall a, b :: a in calls && b in calls && x.hmac(a.0, a.1) == x.hmac(b.0, b.1) ==> a == b
  }

  /** This ciphertext opens under no other key. */
  ghost predicate OpensOnlyUnder(x: Suite, key: Bytes, sealed: Bytes) {
    forall k, nonce, data :: x.open(k, nonce, data, sealed).Some? ==> k == key
  }

  lemma Injective(x: Suite, calls: set<(Bytes, Bytes)>, a: (Bytes, Bytes), b: (Bytes, Bytes))
    requires NoCollision(x, calls) && a in calls && b in calls && x.hmac(a.0, a.1) == x.hmac(b.0, b.1)
    ensures a == b
  {
  }

  /** Every secret of the header enters the key of the header. */
  lemma HeaderKeyBinds(x: Suite, ePub: Bytes, ns: Bytes, a: Secrets, b: Secrets)
    requires NoCollision(x, Calls(x, ePub, a) + Calls(x, ePub, b))
    requires ScheduleOf(x, ePub, a.es, ns, a.ss, a.psk).headerKey
             == ScheduleOf(x, ePub, b.es, ns, b.ss, b.psk).headerKey
    ensures a.es == b.es
  {
    hide NoCollision;
    var calls := Calls(x, ePub, a) + Calls(x, ePub, b);
    var ck1 := x.hmac(x.hmac(x.sha(Ascii(NAME)), ePub), [1]);
    var t, t' := x.hmac(ck1, a.es), x.hmac(ck1, b.es);
    Injective(x, calls, (t, x.hmac(t, [1]) + [2]), (t', x.hmac(t', [1]) + [2]));
    Injective(x, calls, (ck1, a.es), (ck1, b.es));
  }

  /** And all three enter the key of the payload. */
  lemma PayloadKeyBinds(x: Suite, ePub: Bytes, ns: Bytes, a: Secrets, b: Secrets)
    requires a.es == b.es && NoCollision(x, Calls(x, ePub, a) + Calls(x, ePub, b))
    requires ScheduleOf(x, ePub, a.es, ns, a.ss, a.psk).payloadKey
             == ScheduleOf(x, ePub, b.es, ns, b.ss, b.psk).payloadKey
    ensures a == b
  {
    hide NoCollision;
    var calls := Calls(x, ePub, a) + Calls(x, ePub, b);
    var ck1 := x.hmac(x.hmac(x.sha(Ascii(NAME)), ePub), [1]);
    var ck2 := x.hmac(x.hmac(ck1, a.es), [1]);
    var t3, t3' := x.hmac(ck2, a.ss), x.hmac(ck2, b.ss);
    var ck3, ck3' := x.hmac(t3, [1]), x.hmac(t3', [1]);
    var t4, t4' := x.hmac(ck3, a.psk), x.hmac(ck3', b.psk);
    var m, m' := x.hmac(t4, x.hmac(t4, [1]) + [2]), x.hmac(t4', x.hmac(t4', [1]) + [2]);
    Injective(x, calls, (t4, m + [3]), (t4', m' + [3]));
    Injective(x, calls, (ck3, a.psk), (ck3', b.psk));
    Injective(x, calls, (t3, [1]), (t3', [1]));
    Injective(x, calls, (ck2, a.ss), (ck2, b.ss));
  }

  /** The three parts of a packet built for a PDP, with the secrets the two share. */
  lemma BuiltParts(x: Suite, client: ClientIdentity, pdpPub: string, pdp: PDPIdentity, payload: Bytes, ePriv: Bytes,
                   built: int)
    returns (ns: Bytes, nm: Bytes, secrets: Secrets, header: Bytes)
    requires Sizes(x) && Commutes(x) && AeadCorrect(x) && Paired(x, client, pdpPub, pdp)
    requires -TWO63 <= Millis(built) < TWO63
    requires Build(x, client, pdpPub, payload, ePriv, built).Success?
    ensures var b, ePub, cPub := Build(x, client, pdpPub, payload, ePriv, built).value, x.base(ePriv),
                                 x.decode(client.staticPub);
      && ePub.Some? && cPub.Some? && |ePub.value| == 32 && |ns| == 56 && |nm| == |payload| + 16
      && b.packet == ePub.value + ns + nm
      && |header| == 40 && header[8..] == cPub.value && StampOf(header[..8]) == b.timestampMS
      && SecretsOf(x, pdp, ePub.value, cPub.value) == Some(secrets)
      && OpensTo(x, b.packet, secrets, header, payload)
  {
    hide ScheduleOf, ToBE, FromBE, DecodeKey;
    var b := Build(x, client, pdpPub, payload, ePriv, built).value;
    BuildSpelledOut(x, client, pdpPub, payload, ePriv, built, b);
    Decoded(x, client, pdpPub, pdp);
    var cPriv, cPub, pPub, pPriv, psk := x.decode(client.staticPriv).value, x.decode(client.staticPub).value,
      x.decode(pdpPub).value, x.decode(pdp.staticPriv).value, x.decode(client.psk).value;
    var ePub := x.base(ePriv).value;
    var es, ss := x.dh(ePriv, pPub).value, x.dh(cPriv, pPub).value;
    assert x.dh(pPriv, ePub) == Some(es) && x.dh(pPriv, cPub) == Some(ss);
    secrets := Secrets(es, ss, psk);
    header := ToBE(b.timestampMS % 0x1_0000_0000_0000_0000, 8) + cPub;
    var first := ScheduleOf(x, ePub, es, [], [], []);
    ns := SealedHeader(x, first, b.timestampMS, cPub).value;
    var keys := ScheduleOf(x, ePub, es, ns, ss, psk);
    nm := x.seal(keys.payloadKey, ZEROS, keys.payloadData, payload).value;
    KeySizes(x, ePub, es, ns, ss, psk);
    TimestampRoundTrip(b.timestampMS);
    assert header[..8] == ToBE(b.timestampMS % 0x1_0000_0000_0000_0000, 8) && header[8..] == cPub;
    var packet := ePub + ns + nm;
    assert packet[..32] == ePub && packet[32..88] == ns && packet[88..] == nm;
  }

  lemma Decoded(x: Suite, client: ClientIdentity, pdpPub: string, pdp: PDPIdentity)
    requires Paired(x, client, pdpPub, pdp)
    ensures var cPriv, cPub, pPub, pPriv, psk, psk' := x.decode(client.staticPriv), x.decode(client.staticPub),
        x.decode(pdpPub), x.decode(pdp.staticPriv), x.decode(client.psk), x.decode(pdp.psk);
      && cPriv.Some? && cPub.Some? && pPub.Some? && pPriv.Some? && psk.Some? && psk' == psk
      && |pPriv.value| == |psk.value| == 32
      && x.base(cPriv.value) == cPub && x.base(pPriv.value) == pPub
  {
  }

  /** The header's key depends on no more than e and es, and all keys are of the right size. */
  lemma KeySizes(x: Suite, ePub: Bytes, es: Bytes, ns: Bytes, ss: Bytes, psk: Bytes)
    requires Sizes(x)
    ensures var first, keys := ScheduleOf(x, ePub, es, [], [], []), ScheduleOf(x, ePub, es, ns, ss, psk);
      && keys.headerKey == first.headerKey && keys.headerData == first.headerData
      && |keys.headerKey| == 32 && |keys.payloadKey| == 32
  {
  }

  /** The size of a packet that carries this payload is legal. */
  predicate Fits(payload: Bytes) {
    |payload| <= 1096
  }

  /**
   A packet opens for the PDP it was built for and for no other: it opens exactly if it is of legal size, the clock is
   within the skew, and the PDP shares with the intended one the secret of the ephemeral key, that of the client's
   static key, and the PSK.  This holds unless two of the HMAC calls of the two schedules collide, or one of the two
   ciphertexts opens under a key other than its own.
   */
  lemma OpensExactly(x: Suite, client: ClientIdentity, pdpPub: string, pdp: PDPIdentity, other: PDPIdentity,
                     payload: Bytes, ePriv: Bytes, built: int, now: int, skew: int)
    requires Sizes(x) && Commutes(x) && AeadCorrect(x) && Paired(x, client, pdpPub, pdp)
    requires -TWO63 <= Millis(built) < TWO63
    requires Build(x, client, pdpPub, payload, ePriv, built).Success?
    requires var b, ePub, cPub := Build(x, client, pdpPub, payload, ePriv, built).value, x.base(ePriv),
                                  x.decode(client.staticPub);
      && ePub.Some? && cPub.Some? && |b.packet| >= 88
      && var own := SecretsOf(x, pdp, ePub.value, cPub.value);
      && own.Some?
      && var keys := ScheduleOf(x, ePub.value, own.value.es, b.packet[32..88], own.value.ss, own.value.psk);
      && OpensOnlyUnder(x, keys.headerKey, b.packet[32..88]) && OpensOnlyUnder(x, keys.payloadKey, b.packet[88..])
      && forall their, key :: SecretsOf(x, other, ePub.value, key) == Some(their) ==>
           NoCollision(x, Calls(x, ePub.value, own.value) + Calls(x, ePub.value, their))
    ensures var b, ePub, cPub := Build(x, client, pdpPub, payload, ePriv, built).value, x.base(ePriv).value,
                                 x.decode(client.staticPub).value;
      Open(x, b.packet, other, now, skew).Success?
      <==>
      (&& Fits(payload) && -skew <= now - b.timestampMS * 1_000_000 <= skew
       && SecretsOf(x, other, ePub, cPub) == SecretsOf(x, pdp, ePub, cPub))
  {
    hide ScheduleOf, Calls, NoCollision, OpensOnlyUnder, FromBE, AeadCorrect, Commutes, Sizes, Paired, Build, Open,
      SecretsOf, StampOf;
    var b, ePub, cPub := Build(x, client, pdpPub, payload, ePriv, built).value, x.base(ePriv).value,
      x.decode(client.staticPub).value;
    var ns, nm, own, header := BuiltParts(x, client, pdpPub, pdp, payload, ePriv, built);
    assert b.packet[..32] == ePub && b.packet[32..88] == ns && b.packet[88..] == nm;
    if Open(x, b.packet, other, now, skew).Success? {
      var r := Open(x, b.packet, other, now, skew).value;
      OpenSpelledOut(x, b.packet, other, now, skew, r);
      var header': Bytes, their: Secrets, payload': Bytes :| |header'| == 40
        && SecretsOf(x, other, b.packet[..32], header'[8..]) == Some(their)
        && OpensTo(x, b.packet, their, header', payload')
        && var stamp := StampOf(header'[..8]);
        && -skew <= now - stamp * 1_000_000 <= skew;
      OwnSecrets(x, b.packet, ePub, own, their, header, payload, header', payload');
    } else if SecretsOf(x, other, ePub, cPub) == Some(own) && Fits(payload)
      && -skew <= now - b.timestampMS * 1_000_000 <= skew
    {
      OpensIf(x, b.packet, other, now, skew, header, own, payload);
      assert false;
    }
  }

  /** Whatever else opens the packet has its secrets. */
  lemma OwnSecrets(x: Suite, packet: Bytes, ePub: Bytes, own: Secrets, their: Secrets, header: Bytes, payload: Bytes,
                   header': Bytes, payload': Bytes)
    requires |packet| >= 88 && packet[..32] == ePub
    requires OpensTo(x, packet, own, header, payload) && OpensTo(x, packet, their, header', payload')
    requires var keys := ScheduleOf(x, ePub, own.es, packet[32..88], own.ss, own.psk);
      OpensOnlyUnder(x, keys.headerKey, packet[32..88]) && OpensOnlyUnder(x, keys.payloadKey, packet[88..])
    requires NoCollision(x, Calls(x, ePub, own) + Calls(x, ePub, their))
    ensures their == own && header' == header && payload' == payload
  {
    hide ScheduleOf, Calls, NoCollision;
    HeaderKeyBinds(x, ePub, packet[32..88], own, their);
    PayloadKeyBinds(x, ePub, packet[32..88], own, their);
  }

  /** The response is sealed under its key alone, with the zero nonce and no associated data. */
  lemma ResponseSpelledOut(x: Suite, key: Bytes, text: Bytes)
    ensures EncryptResponse(x, key, text) == x.seal(key, ZEROS, [], text)
    ensures DecryptResponse(x, key, text) == x.open(key, ZEROS, [], text)
  {
    NonceIsZero();
  }
}
